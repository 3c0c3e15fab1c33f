/**
 * Properties that relate several calls of the handlers in Api: ordering of
 * the login outcomes, what seeding and signup make possible afterwards,
 * idempotence, and the store invariant over any sequence of operations.
 */
module ApiProperties {
  import opened Wrappers
  import opened Credentials
  import opened Users
  import opened UploadNames
  import opened Api

  /** Seeding a second time changes nothing: seeding twice equals seeding once. */
  lemma SeedIdempotent(h: Hasher, db: bool, st: State, a1: Salt, s1: Salt, a2: Salt, s2: Salt)
    ensures Seed(h, db, Seed(h, db, st, a1, s1), a2, s2) == Seed(h, db, st, a1, s1)
  {
  }

  /**
   * After seeding an empty store, both default accounts log in with their
   * documented passwords, the first as a teacher and the second as a student.
   */
  lemma SeededAccountsLogIn(h: Hasher, st: State, adminSalt: Salt, studentSalt: Salt)
    requires Sound(h) && st.users == []
    ensures
      var seeded := Seed(h, true, st, adminSalt, studentSalt);
      var admin := Login(h, true, seeded, LoginRequest(Some("admin@example.com"), Some("admin123")), false);
      var student := Login(h, true, seeded, LoginRequest(Some("student@example.com"), Some("student123")), false);
      admin.resp.success && admin.state.session.value.role == Teacher &&
      student.resp.success && student.state.session.value.role == Student
  {
  }

  /**
   * With unique emails, login succeeds exactly when some stored user has the
   * given email and the password verifies against that user's hash; the
   * session then holds that user's identity view.
   */
  lemma LoginSucceedsIff(h: Hasher, st: State, req: LoginRequest)
    requires UniqueEmails(st.users) && Truthy(req.email) && Truthy(req.password)
    ensures
      var r := Login(h, true, st, req, false);
      r.resp.success <==>
        exists i :: 0 <= i < |st.users| && st.users[i].email == req.email.value &&
          h.verify(req.password.value, st.users[i].password)
  {
  }

  /**
   * An unknown email and a wrong password for a known one give the very same
   * outcome, 401 "Invalid credentials", and leave store and session as they were.
   */
  lemma InvalidCredentialsIndistinguishable(h: Hasher, st: State, unknown: LoginRequest, wrong: LoginRequest, i: nat)
    requires UniqueEmails(st.users)
    requires Truthy(unknown.email) && Truthy(unknown.password) && !EmailTaken(st.users, unknown.email.value)
    requires Truthy(wrong.email) && Truthy(wrong.password)
    requires i < |st.users| && st.users[i].email == wrong.email.value
    requires !h.verify(wrong.password.value, st.users[i].password)
    ensures Login(h, true, st, unknown, false) == Login(h, true, st, wrong, false)
    ensures Login(h, true, st, unknown, false) == Step(st, Fail(401, "Invalid credentials"))
  {
  }

  /**
   * After a successful signup, logging in with the same email and password
   * succeeds and puts the same identity in the session as the signup did.
   */
  lemma SignupThenLogin(h: Hasher, st: State, req: SignupRequest, salt: Salt)
    requires Sound(h)
    requires Signup(h, true, st, req, salt, false).resp.success
    ensures
      var after := Signup(h, true, st, req, salt, false).state;
      var login := Login(h, true, after, LoginRequest(req.email, req.password), false);
      login.resp.success && login.state == after && login.resp.user == after.session
  {
    var u := NewStudent(h, st, req, salt);
    var after := Signup(h, true, st, req, salt, false).state;
    FindAppended(st.users, u);
    assert after.users == st.users + [u];
    VerifiesOwnHash(h, req.password.value, salt);
  }

  /** After login or signup succeeds, the current user is the identity the response returned. */
  lemma CurrentUserAfterLogin(h: Hasher, db: bool, st: State, req: LoginRequest, fault: bool)
    requires Login(h, db, st, req, fault).resp.success
    ensures
      var r := Login(h, db, st, req, fault);
      CurrentUser(r.state).success && CurrentUser(r.state).user == r.resp.user
  {
  }

  lemma CurrentUserAfterSignup(h: Hasher, db: bool, st: State, req: SignupRequest, salt: Salt, fault: bool)
    requires Signup(h, db, st, req, salt, fault).resp.success
    ensures
      var r := Signup(h, db, st, req, salt, fault);
      CurrentUser(r.state).success && CurrentUser(r.state).user == r.resp.user
  {
  }

  /** Logging out twice is logging out once, and afterwards nobody is logged in. */
  lemma LogoutIdempotent(st: State)
    ensures Logout(Logout(st).state) == Logout(st)
    ensures CurrentUser(Logout(st).state) == Fail(401, "Not logged in")
  {
  }

  /** A signup keeps the stored emails unique: a duplicate is refused before insertion. */
  lemma SignupKeepsEmailsUnique(h: Hasher, db: bool, st: State, req: SignupRequest, salt: Salt, fault: bool)
    requires UniqueEmails(st.users)
    ensures UniqueEmails(Signup(h, db, st, req, salt, fault).state.users)
  {
  }

  /** Every operation keeps the store invariant. */
  lemma ApplyPreservesWellFormed(h: Hasher, db: bool, st: State, op: Op)
    requires WellFormed(st)
    ensures WellFormed(Apply(h, db, st, op))
  {
    var next := Apply(h, db, st, op);
    match op
    case Seeding(a, s) =>
    case LoginCall(req, fault) =>
      var r := Login(h, db, st, req, fault);
      if r.resp.success {
        var i :| 0 <= i < |st.users| && r.state.session.value == View(st.users[i]);
        assert View(next.users[i]) == next.session.value;
      }
    case SignupCall(req, salt, fault) =>
      var r := Signup(h, db, st, req, salt, fault);
      SignupKeepsEmailsUnique(h, db, st, req, salt, fault);
      if r.resp.success {
        var n := |st.users|;
        assert next.users[n] == NewStudent(h, st, req, salt);
        assert forall k :: 0 <= k < n ==> next.users[k] == st.users[k];
        assert View(next.users[n]) == next.session.value;
      }
    case LogoutCall =>
    case CurrentUserCall =>
    case UploadCall(_, _) =>
  }

  /** The invariant holds after any sequence of operations from a well-formed state. */
  lemma {:induction false} RunPreservesWellFormed(h: Hasher, db: bool, st: State, ops: seq<Op>)
    requires WellFormed(st)
    ensures WellFormed(Run(h, db, st, ops))
    decreases |ops|
  {
    if ops != [] {
      ApplyPreservesWellFormed(h, db, st, ops[0]);
      RunPreservesWellFormed(h, db, Apply(h, db, st, ops[0]), ops[1..]);
    }
  }

  /** Users are never updated or deleted: every operation only appends to the store. */
  lemma {:induction false} RunOnlyAppends(h: Hasher, db: bool, st: State, ops: seq<Op>)
    ensures st.users <= Run(h, db, st, ops).users
    decreases |ops|
  {
    if ops != [] {
      var next := Apply(h, db, st, ops[0]);
      assert st.users <= next.users;
      RunOnlyAppends(h, db, next, ops[1..]);
    }
  }

  /** Authentication is checked before anything in the form: no session and "notes.txt" gives 401. */
  lemma UnauthenticatedBeforeBadExtension(st: State, subject: Option<string>, now: Stamp)
    requires ValidStamp(now) && st.session.None?
    ensures Upload(st, UploadRequest(subject, Some(FilePart("notes.txt"))), now).resp.status == 401
  {
  }

  /** A student is refused with 403 even for a well-formed PDF upload. */
  lemma StudentForbidden(st: State, now: Stamp)
    requires ValidStamp(now) && st.session.Some? && st.session.value.role == Student
    ensures Upload(st, UploadRequest(Some("Math"), Some(FilePart("chapter1.pdf"))), now).resp.status == 403
  {
  }

  /** A teacher's upload of "notes.txt" with a subject is refused with 400 "Only PDF files are allowed". */
  lemma TeacherNotesTxtRejected(st: State, now: Stamp)
    requires ValidStamp(now) && st.session.Some? && st.session.value.role == Teacher
    ensures Upload(st, UploadRequest(Some("Math"), Some(FilePart("notes.txt"))), now).resp
      == Fail(400, "Only PDF files are allowed")
  {
    IsPdfNameByChars("notes.txt");
  }

  /** A teacher's upload of "chapter1.PDF" for "Math" is stored as Math_<8 digits>_<6 digits>.pdf. */
  lemma TeacherUploadsUpperCasePdf(st: State, now: Stamp)
    requires ValidStamp(now) && st.session.Some? && st.session.value.role == Teacher
    ensures
      var r := Upload(st, UploadRequest(Some("Math"), Some(FilePart("chapter1.PDF"))), now);
      r.resp.success && r.savedAs.Some? &&
      var name := r.savedAs.value;
      |name| == 24 && name[..5] == "Math_" && StampShaped(name[5..20]) && name[20..] == ".pdf"
  {
  }
}
