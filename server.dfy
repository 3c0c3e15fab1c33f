/**
 * The handlers as they run: one object holding the user store and the
 * session slot of the client, each handler a method that reads the request,
 * walks its guards in order and updates the fields in place. Every method is
 * proved to end in the response and the state the matching function in Api
 * gives, so the lemmas in ApiProperties apply to it.
 */
module Server {
  import opened Wrappers
  import opened Credentials
  import opened Users
  import opened UploadNames
  import opened Api
  import ApiProperties

  class App {
    const hasher: Hasher
    /** Whether the store connection was made at start-up (`users_collection is not None`). */
    const dbAvailable: bool
    var users: seq<User>
    var nextId: nat
    var session: Option<Identity>

    function Snapshot(): State
      reads this
    {
      State(users, nextId, session)
    }

    /** A process starting over an existing collection, for a client without a session. */
    constructor (hasher: Hasher, dbAvailable: bool, users: seq<User>, nextId: nat)
      ensures this.hasher == hasher && this.dbAvailable == dbAvailable
      ensures Snapshot() == State(users, nextId, None)
    {
      this.hasher := hasher;
      this.dbAvailable := dbAvailable;
      this.users := users;
      this.nextId := nextId;
      this.session := None;
    }

    /** initialize_default_users (app.py:48-67) */
    method InitializeDefaultUsers(adminSalt: Salt, studentSalt: Salt)
      modifies this`users, this`nextId
      ensures Snapshot() == Seed(hasher, dbAvailable, old(Snapshot()), adminSalt, studentSalt)
      ensures session == old(session)
    {
      if dbAvailable && |users| == 0 {
        var admin := User(nextId, "Admin User", "admin@example.com", hasher.hash("admin123", adminSalt), Teacher);
        var student := User(nextId + 1, "Student User", "student@example.com", hasher.hash("student123", studentSalt), Student);
        users := users + [admin, student];
        nextId := nextId + 2;
      }
    }

    /** api_login (app.py:95-143) */
    method Login(req: LoginRequest, fault: bool) returns (resp: Response)
      modifies this`session
      ensures Step(Snapshot(), resp) == Api.Login(hasher, dbAvailable, old(Snapshot()), req, fault)
      ensures unchanged(this`users, this`nextId)
    {
      if !dbAvailable {
        return Fail(500, "Database connection error");
      }
      var email, password := req.email, req.password;
      if !Truthy(email) || !Truthy(password) {
        return Fail(400, "Email and password are required");
      }
      if fault {
        return Fail(500, "Login failed");
      }
      var found := FindByEmail(users, email.value);
      if found.Some? && hasher.verify(password.value, users[found.value].password) {
        var user := users[found.value];
        var userSession := Identity(user.name, user.email, user.role, user.id);
        session := Some(userSession);
        return Response(200, true, Some("Login successful"), Some(userSession));
      }
      return Fail(401, "Invalid credentials");
    }

    /** api_signup (app.py:146-206) */
    method Signup(req: SignupRequest, salt: Salt, fault: bool) returns (resp: Response)
      modifies this`users, this`nextId, this`session
      ensures Step(Snapshot(), resp) == Api.Signup(hasher, dbAvailable, old(Snapshot()), req, salt, fault)
      ensures old(WellFormed(Snapshot())) ==> WellFormed(Snapshot())
    {
      ghost var before := Snapshot();
      if !dbAvailable {
        return Fail(500, "Database connection error");
      }
      var email, password, firstName, lastName := req.email, req.password, req.firstName, req.lastName;
      if !(Truthy(email) && Truthy(password) && Truthy(firstName) && Truthy(lastName)) {
        return Fail(400, "All fields are required");
      }
      if fault {
        return Fail(500, "Account creation failed");
      }
      var existing := FindByEmail(users, email.value);
      if existing.Some? {
        return Fail(400, "User already exists");
      }
      var newUser := User(nextId, firstName.value + " " + lastName.value, email.value,
                          hasher.hash(password.value, salt), Student);
      users := users + [newUser];
      nextId := nextId + 1;
      var userSession := Identity(newUser.name, email.value, Student, newUser.id);
      session := Some(userSession);
      resp := Response(200, true, Some("Account created successfully"), Some(userSession));
      if WellFormed(before) {
        ApiProperties.ApplyPreservesWellFormed(hasher, dbAvailable, before, SignupCall(req, salt, fault));
      }
    }

    /** api_logout (app.py:209-215) */
    method Logout() returns (resp: Response)
      modifies this`session
      ensures Step(Snapshot(), resp) == Api.Logout(old(Snapshot()))
      ensures unchanged(this`users, this`nextId)
    {
      session := None;
      resp := Response(200, true, Some("Logged out successfully"), None);
    }

    /** api_user (app.py:218-229) */
    method CurrentUser() returns (resp: Response)
      ensures resp == Api.CurrentUser(Snapshot())
      ensures resp.success <==> session.Some?
      ensures resp.success ==> resp.user == session
    {
      if session.Some? {
        return Response(200, true, None, session);
      }
      return Fail(401, "Not logged in");
    }

    /**
     * api_upload (app.py:233-275). Writing the payload is left to the caller:
     * `savedAs` is the name it goes under in the upload folder.
     */
    method Upload(req: UploadRequest, now: Stamp) returns (resp: Response, savedAs: Option<string>)
      requires ValidStamp(now)
      ensures UploadResult(resp, savedAs) == Api.Upload(Snapshot(), req, now)
      ensures savedAs.Some? ==> IsPdfName(savedAs.value)
    {
      if session.None? {
        return Fail(401, "Authentication required"), None;
      }
      if session.value.role != Teacher {
        return Fail(403, "Teacher access required"), None;
      }
      var subjectName, file := req.subjectName, req.file;
      if !Truthy(subjectName) || file.None? {
        return Fail(400, "Subject name and file are required"), None;
      }
      if file.value.filename == "" {
        return Fail(400, "No file selected"), None;
      }
      if IsPdfName(file.value.filename) {
        var filename := StoredName(subjectName.value, now);
        StoredNameIsPdf(subjectName.value, now);
        return Response(200, true, Some(UploadMessage(subjectName.value, filename)), None), Some(filename);
      }
      return Fail(400, "Only PDF files are allowed"), None;
    }
  }
}
