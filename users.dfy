/**
 * The user records of the document store and the identity view that the
 * session carries (app.py:51-66, app.py:119-124, app.py:176-192).
 */
module Users {
  import opened Wrappers

  datatype Role = Teacher | Student

  /** A stored user; `id` is the identifier the store assigns on insert. */
  datatype User = User(id: nat, name: string, email: string, password: string, role: Role)

  /** What the session holds of a user: everything but the password hash. */
  datatype Identity = Identity(name: string, email: string, role: Role, userId: nat)

  function View(u: User): Identity {
    Identity(u.name, u.email, u.role, u.id)
  }

  predicate EmailTaken(users: seq<User>, email: string) {
    exists j :: 0 <= j < |users| && users[j].email == email
  }

  /**
   * The store's find_one on the email field: the first user whose email
   * equals `email` exactly (the comparison is case-sensitive), or None when
   * there is none. The store's natural order is taken to be insertion order.
   */
  function FindByEmail(users: seq<User>, email: string): (r: Option<nat>)
    ensures r.Some? ==> r.value < |users| && users[r.value].email == email
    ensures r.Some? ==> forall j :: 0 <= j < r.value ==> users[j].email != email
    ensures r.None? <==> !EmailTaken(users, email)
  {
    if users == [] then None
    else if users[0].email == email then Some(0)
    else match FindByEmail(users[1..], email)
      case None => None
      case Some(k) => Some(k + 1)
  }

  /** No two stored users share an email. */
  predicate UniqueEmails(users: seq<User>) {
    forall i, j :: 0 <= i < j < |users| ==> users[i].email != users[j].email
  }

  /** Identifiers are distinct and all below the next one the store will hand out. */
  predicate IdsFresh(users: seq<User>, nextId: nat) {
    (forall i :: 0 <= i < |users| ==> users[i].id < nextId) &&
    (forall i, j :: 0 <= i < j < |users| ==> users[i].id != users[j].id)
  }

  /** With unique emails, the lookup finds exactly the user holding the email. */
  lemma FindByEmailUnique(users: seq<User>, email: string, i: nat)
    requires UniqueEmails(users)
    requires i < |users| && users[i].email == email
    ensures FindByEmail(users, email) == Some(i)
  {
  }

  /** Appending a user whose email is new makes the lookup find that user. */
  lemma FindAppended(users: seq<User>, u: User)
    requires !EmailTaken(users, u.email)
    ensures FindByEmail(users + [u], u.email) == Some(|users|)
  {
    var all := users + [u];
    assert all[|users|].email == u.email;
    assert EmailTaken(all, u.email);
    assert forall j :: 0 <= j < |users| ==> all[j] == users[j];
  }
}
