/**
 * The request-decision layer of the auth and upload API (app.py:48-275) as
 * functions on a value: the user store, the next identifier the store will
 * assign, and the one session slot of the client making the requests. Each
 * handler is a fixed chain of guards ending in one response and a precise
 * new state. The class in Server runs the same handlers in place; these
 * functions are what its methods are proved against.
 *
 * Parameters stand for what the model leaves abstract: `h` for bcrypt,
 * `db` for whether the store connection was made (`users_collection is not
 * None`), a salt per hash for bcrypt.gensalt(), `fault` for an exception
 * raised by the store or the hasher inside a handler's try block, and a
 * `Stamp` for the clock.
 */
module Api {
  import opened Wrappers
  import opened Credentials
  import opened Users
  import opened UploadNames

  datatype State = State(users: seq<User>, nextId: nat, session: Option<Identity>)

  /** HTTP status, the `success` and `message` keys of the JSON body, and its `user` key. */
  datatype Response = Response(status: nat, success: bool, message: Option<string>, user: Option<Identity>)

  datatype Step = Step(state: State, resp: Response)

  /** Request fields as the handlers read them; None when the key is absent. */
  datatype LoginRequest = LoginRequest(email: Option<string>, password: Option<string>)

  datatype SignupRequest =
    SignupRequest(email: Option<string>, password: Option<string>,
                  firstName: Option<string>, lastName: Option<string>)

  datatype FilePart = FilePart(filename: string)

  datatype UploadRequest = UploadRequest(subjectName: Option<string>, file: Option<FilePart>)

  /** The upload response and the name the file was written under, if it was. */
  datatype UploadResult = UploadResult(resp: Response, savedAs: Option<string>)

  /** A field passes `if not field` when it is present and non-empty. */
  predicate Truthy(field: Option<string>) {
    field.Some? && field.value != ""
  }

  function Fail(status: nat, message: string): Response {
    Response(status, false, Some(message), None)
  }

  /**
   * The store invariant: emails unique, identifiers fresh, and a session,
   * when present, is the identity view of a stored user.
   */
  ghost predicate WellFormed(st: State) {
    UniqueEmails(st.users) && IdsFresh(st.users, st.nextId) &&
    (st.session.Some? ==> exists i :: 0 <= i < |st.users| && View(st.users[i]) == st.session.value)
  }

  /** initialize_default_users (app.py:48-67) */
  function Seed(h: Hasher, db: bool, st: State, adminSalt: Salt, studentSalt: Salt): (r: State)
    ensures r.session == st.session
    ensures r != st <==> db && st.users == []
    ensures r != st ==>
      |r.users| == 2 && r.nextId == st.nextId + 2 &&
      r.users[0].name == "Admin User" && r.users[0].email == "admin@example.com" &&
      r.users[0].role == Teacher &&
      r.users[1].name == "Student User" && r.users[1].email == "student@example.com" &&
      r.users[1].role == Student
  {
    if db && |st.users| == 0 then
      var admin := User(st.nextId, "Admin User", "admin@example.com", h.hash("admin123", adminSalt), Teacher);
      var student := User(st.nextId + 1, "Student User", "student@example.com", h.hash("student123", studentSalt), Student);
      st.(users := [admin, student], nextId := st.nextId + 2)
    else
      st
  }

  /** api_login (app.py:95-143) */
  function Login(h: Hasher, db: bool, st: State, req: LoginRequest, fault: bool): (r: Step)
    ensures r.state.users == st.users && r.state.nextId == st.nextId
    ensures !db ==> r == Step(st, Fail(500, "Database connection error"))
    ensures db && !(Truthy(req.email) && Truthy(req.password)) ==>
      r == Step(st, Fail(400, "Email and password are required"))
    ensures db && Truthy(req.email) && Truthy(req.password) && fault ==>
      r == Step(st, Fail(500, "Login failed"))
    ensures r.resp.success ==>
      r.resp.status == 200 && r.state.session.Some? && r.resp.user == r.state.session &&
      exists i :: 0 <= i < |st.users| && st.users[i].email == req.email.value &&
        h.verify(req.password.value, st.users[i].password) && r.state.session.value == View(st.users[i])
    ensures !r.resp.success ==> r.state == st && r.resp.user.None?
  {
    if !db then
      Step(st, Fail(500, "Database connection error"))
    else if !Truthy(req.email) || !Truthy(req.password) then
      Step(st, Fail(400, "Email and password are required"))
    else if fault then
      Step(st, Fail(500, "Login failed"))
    else
      var found := FindByEmail(st.users, req.email.value);
      if found.Some? && h.verify(req.password.value, st.users[found.value].password) then
        var view := View(st.users[found.value]);
        Step(st.(session := Some(view)), Response(200, true, Some("Login successful"), Some(view)))
      else
        Step(st, Fail(401, "Invalid credentials"))
  }

  predicate SignupFieldsPresent(req: SignupRequest) {
    Truthy(req.email) && Truthy(req.password) && Truthy(req.firstName) && Truthy(req.lastName)
  }

  /** The record a successful signup inserts. */
  function NewStudent(h: Hasher, st: State, req: SignupRequest, salt: Salt): User
    requires SignupFieldsPresent(req)
  {
    User(st.nextId, req.firstName.value + " " + req.lastName.value, req.email.value,
         h.hash(req.password.value, salt), Student)
  }

  /** api_signup (app.py:146-206) */
  function Signup(h: Hasher, db: bool, st: State, req: SignupRequest, salt: Salt, fault: bool): (r: Step)
    ensures !db ==> r == Step(st, Fail(500, "Database connection error"))
    ensures db && !SignupFieldsPresent(req) ==> r == Step(st, Fail(400, "All fields are required"))
    ensures db && SignupFieldsPresent(req) && fault ==> r == Step(st, Fail(500, "Account creation failed"))
    ensures db && SignupFieldsPresent(req) && !fault && EmailTaken(st.users, req.email.value) ==>
      r == Step(st, Fail(400, "User already exists"))
    ensures r.resp.success <==>
      db && SignupFieldsPresent(req) && !fault && !EmailTaken(st.users, req.email.value)
    ensures r.resp.success ==>
      var u := NewStudent(h, st, req, salt);
      r.state.users == st.users + [u] && r.state.nextId == st.nextId + 1 &&
      u.name == req.firstName.value + " " + req.lastName.value && u.role == Student &&
      r.state.session == Some(View(u)) && r.resp.user == r.state.session && r.resp.status == 200
    ensures !r.resp.success ==> r.state == st && r.resp.user.None?
  {
    if !db then
      Step(st, Fail(500, "Database connection error"))
    else if !SignupFieldsPresent(req) then
      Step(st, Fail(400, "All fields are required"))
    else if fault then
      Step(st, Fail(500, "Account creation failed"))
    else if FindByEmail(st.users, req.email.value).Some? then
      Step(st, Fail(400, "User already exists"))
    else
      var u := NewStudent(h, st, req, salt);
      var view := Identity(u.name, req.email.value, Student, u.id);
      Step(State(st.users + [u], st.nextId + 1, Some(view)),
           Response(200, true, Some("Account created successfully"), Some(view)))
  }

  /** api_logout (app.py:209-215) */
  function Logout(st: State): (r: Step)
    ensures r.state == st.(session := None)
    ensures r.resp.success && r.resp.status == 200
  {
    Step(st.(session := None), Response(200, true, Some("Logged out successfully"), None))
  }

  /** api_user (app.py:218-229) */
  function CurrentUser(st: State): (r: Response)
    ensures r.success <==> st.session.Some?
    ensures r.success ==> r.status == 200 && r.user == st.session
    ensures !r.success ==> r == Fail(401, "Not logged in")
  {
    if st.session.Some? then Response(200, true, None, st.session)
    else Fail(401, "Not logged in")
  }

  /** Every upload guard passes. */
  predicate UploadAccepted(st: State, req: UploadRequest) {
    st.session.Some? && st.session.value.role == Teacher &&
    Truthy(req.subjectName) && req.file.Some? &&
    req.file.value.filename != "" && IsPdfName(req.file.value.filename)
  }

  /** api_upload (app.py:233-275); the state is only read. */
  function Upload(st: State, req: UploadRequest, now: Stamp): (r: UploadResult)
    requires ValidStamp(now)
    ensures st.session.None? ==> r == UploadResult(Fail(401, "Authentication required"), None)
    ensures st.session.Some? && st.session.value.role != Teacher ==>
      r == UploadResult(Fail(403, "Teacher access required"), None)
    ensures (st.session.Some? && st.session.value.role == Teacher &&
             !(Truthy(req.subjectName) && req.file.Some?)) ==>
      r == UploadResult(Fail(400, "Subject name and file are required"), None)
    ensures (st.session.Some? && st.session.value.role == Teacher &&
             Truthy(req.subjectName) && req.file.Some? && req.file.value.filename == "") ==>
      r == UploadResult(Fail(400, "No file selected"), None)
    ensures (st.session.Some? && st.session.value.role == Teacher &&
             Truthy(req.subjectName) && req.file.Some? && req.file.value.filename != "" &&
             !IsPdfName(req.file.value.filename)) ==>
      r == UploadResult(Fail(400, "Only PDF files are allowed"), None)
    ensures r.resp.success <==> UploadAccepted(st, req)
    ensures r.resp.success <==> r.savedAs.Some?
    ensures r.resp.success ==>
      r.resp.status == 200 &&
      r.savedAs == Some(StoredName(req.subjectName.value, now)) &&
      r.resp.message == Some(UploadMessage(req.subjectName.value, r.savedAs.value))
    ensures !r.resp.success ==> r.resp.status in {400, 401, 403}
  {
    if st.session.None? then
      UploadResult(Fail(401, "Authentication required"), None)
    else if st.session.value.role != Teacher then
      UploadResult(Fail(403, "Teacher access required"), None)
    else if !Truthy(req.subjectName) || req.file.None? then
      UploadResult(Fail(400, "Subject name and file are required"), None)
    else if req.file.value.filename == "" then
      UploadResult(Fail(400, "No file selected"), None)
    else if IsPdfName(req.file.value.filename) then
      var subject := req.subjectName.value;
      var filename := StoredName(subject, now);
      UploadResult(Response(200, true, Some(UploadMessage(subject, filename)), None), Some(filename))
    else
      UploadResult(Fail(400, "Only PDF files are allowed"), None)
  }

  /** One request, or the start-up seeding, as an input to the state machine. */
  datatype Op =
    | Seeding(adminSalt: Salt, studentSalt: Salt)
    | LoginCall(login: LoginRequest, loginFault: bool)
    | SignupCall(signup: SignupRequest, salt: Salt, signupFault: bool)
    | LogoutCall
    | CurrentUserCall
    | UploadCall(upload: UploadRequest, now: Stamp)

  /** The state after one operation; reading the session and uploading leave it as it was. */
  function Apply(h: Hasher, db: bool, st: State, op: Op): State {
    match op
    case Seeding(a, s) => Seed(h, db, st, a, s)
    case LoginCall(req, fault) => Login(h, db, st, req, fault).state
    case SignupCall(req, salt, fault) => Signup(h, db, st, req, salt, fault).state
    case LogoutCall => Logout(st).state
    case CurrentUserCall => st
    case UploadCall(_, _) => st
  }

  function Run(h: Hasher, db: bool, st: State, ops: seq<Op>): State
    decreases |ops|
  {
    if ops == [] then st else Run(h, db, Apply(h, db, st, ops[0]), ops[1..])
  }
}
