/** The mock authentication context: a registry of accounts kept with their
    passwords, and the signed-in profile, which never carries one. */
module Auth {
  import opened Optional
  import opened Sequences

  /** A registered account as kept in the registry. */
  datatype Account = Account(
    id: string,
    email: string,
    password: string,
    name: string,
    role: string,
    companyName: string,
    companyLogo: string)

  /** The signed-in user: an account without its password. */
  datatype Profile = Profile(
    id: string,
    email: string,
    name: string,
    role: string,
    companyName: string,
    companyLogo: string)

  datatype AuthState = AuthState(users: seq<Account>, current: Option<Profile>)

  function WithoutPassword(a: Account): (p: Profile)
    ensures p.id == a.id && p.email == a.email && p.name == a.name && p.role == a.role
    ensures p.companyName == a.companyName && p.companyLogo == a.companyLogo
  {
    Profile(a.id, a.email, a.name, a.role, a.companyName, a.companyLogo)
  }

  /** `login`: sign in as the first account with that email and password.
      A failed attempt changes nothing, not even an existing session. */
  function Login(st: AuthState, email: string, password: string): (r: (bool, AuthState))
    ensures r.1.users == st.users
    ensures r.0 <==> exists i :: 0 <= i < |st.users| && st.users[i].email == email && st.users[i].password == password
    ensures !r.0 ==> r.1 == st
    ensures r.0 ==>
      (exists i :: 0 <= i < |st.users|
        && st.users[i].email == email && st.users[i].password == password
        && (forall j :: 0 <= j < i ==> !(st.users[j].email == email && st.users[j].password == password))
        && r.1.current == Some(WithoutPassword(st.users[i])))
  {
    match FirstIndex(st.users, (a: Account) => a.email == email && a.password == password)
    case None => (false, st)
    case Some(i) => (true, st.(current := Some(WithoutPassword(st.users[i]))))
  }

  /** `signup`: refuse an email already registered; otherwise register a new
      account with empty company fields and sign it in. */
  function Signup(st: AuthState, email: string, password: string, name: string, role: string, id: string)
    : (r: (bool, AuthState))
    ensures r.0 <==> forall i :: 0 <= i < |st.users| ==> st.users[i].email != email
    ensures !r.0 ==> r.1 == st
    ensures r.0 ==>
      var a := Account(id, email, password, name, role, "", "");
      r.1.users == st.users + [a] && r.1.current == Some(WithoutPassword(a))
  {
    match FirstIndex(st.users, (a: Account) => a.email == email)
    case Some(_) => (false, st)
    case None =>
      var a := Account(id, email, password, name, role, "", "");
      (true, AuthState(st.users + [a], Some(WithoutPassword(a))))
  }

  function Logout(st: AuthState): (r: AuthState)
    ensures r.current.None? && r.users == st.users
  {
    st.(current := None)
  }

  /** The fields the settings forms send; an absent field is kept. */
  datatype UserPatch = UserPatch(
    email: Option<string>,
    name: Option<string>,
    role: Option<string>,
    companyName: Option<string>,
    companyLogo: Option<string>)

  function PatchProfile(p: Profile, u: UserPatch): Profile {
    Profile(p.id, Pick(u.email, p.email), Pick(u.name, p.name), Pick(u.role, p.role),
      Pick(u.companyName, p.companyName), Pick(u.companyLogo, p.companyLogo))
  }

  function PatchAccount(a: Account, u: UserPatch): Account {
    Account(a.id, Pick(u.email, a.email), a.password, Pick(u.name, a.name), Pick(u.role, a.role),
      Pick(u.companyName, a.companyName), Pick(u.companyLogo, a.companyLogo))
  }

  /** `updateUser`: with someone signed in, patch the profile and the first
      registry account with the profile's id (if any); signed out, nothing
      changes. */
  function UpdateUser(st: AuthState, u: UserPatch): (r: AuthState)
    ensures st.current.None? ==> r == st
    ensures st.current.Some? ==> r.current == Some(PatchProfile(st.current.value, u))
    ensures |r.users| == |st.users|
    ensures forall i :: 0 <= i < |st.users| ==> r.users[i].id == st.users[i].id && r.users[i].password == st.users[i].password
    ensures st.current.Some? ==> forall i :: 0 <= i < |st.users| ==>
      r.users[i] == (if st.users[i].id == st.current.value.id
                       && (forall j :: 0 <= j < i ==> st.users[j].id != st.current.value.id)
                     then PatchAccount(st.users[i], u) else st.users[i])
  {
    match st.current
    case None => st
    case Some(p) =>
      var users := match FirstIndex(st.users, (a: Account) => a.id == p.id)
        case None => st.users
        case Some(i) => st.users[i := PatchAccount(st.users[i], u)];
      AuthState(users, Some(PatchProfile(p, u)))
  }

  // ---------------------------------------------------------------------------
  // Properties

  predicate UniqueEmails(users: seq<Account>) {
    forall i, j :: 0 <= i < j < |users| ==> users[i].email != users[j].email
  }

  /** Signing up never registers an email twice. */
  lemma SignupKeepsEmailsUnique(st: AuthState, email: string, password: string, name: string, role: string, id: string)
    requires UniqueEmails(st.users)
    ensures UniqueEmails(Signup(st, email, password, name, role, id).1.users)
  {
  }

  /** A fresh account can sign in again with the same credentials and gets
      the same profile. */
  lemma SignupThenLogin(st: AuthState, email: string, password: string, name: string, role: string, id: string)
    requires Signup(st, email, password, name, role, id).0
    ensures var after := Logout(Signup(st, email, password, name, role, id).1);
      Login(after, email, password).0
      && Login(after, email, password).1.current == Signup(st, email, password, name, role, id).1.current
  {
    var users := Signup(st, email, password, name, role, id).1.users;
    var a := Account(id, email, password, name, role, "", "");
    assert users == st.users + [a];
    FirstMatch(users, (x: Account) => x.email == email && x.password == password, |st.users|);
  }

  /** Login signs in the one account with that email when emails are unique
      and the password matches it. */
  lemma LoginFindsOwner(st: AuthState, i: nat, password: string)
    requires UniqueEmails(st.users)
    requires i < |st.users| && st.users[i].password == password
    ensures Login(st, st.users[i].email, password) == (true, st.(current := Some(WithoutPassword(st.users[i]))))
  {
    FirstMatch(st.users, (a: Account) => a.email == st.users[i].email && a.password == password, i);
  }

  predicate UniqueIds(users: seq<Account>) {
    forall i, j :: 0 <= i < j < |users| ==> users[i].id != users[j].id
  }

  /** A profile update keeps registry emails unique when it leaves the email
      alone or sets one that only the signed-in account uses, ids being
      unique. */
  lemma UpdateUserKeepsEmailsUnique(st: AuthState, u: UserPatch)
    requires UniqueEmails(st.users) && UniqueIds(st.users)
    requires st.current.Some?
    requires u.email.Some? ==>
      forall j :: 0 <= j < |st.users| && st.users[j].email == u.email.value ==> st.users[j].id == st.current.value.id
    ensures UniqueEmails(UpdateUser(st, u).users)
  {
    var p := st.current.value;
    match FirstIndex(st.users, (a: Account) => a.id == p.id)
    case None =>
    case Some(k) =>
      var r := st.users[k := PatchAccount(st.users[k], u)];
      assert UpdateUser(st, u).users == r;
      forall i, j | 0 <= i < j < |r| ensures r[i].email != r[j].email {
        if i == k || j == k {
          var other := if i == k then j else i;
          assert st.users[other].id != p.id;
        }
      }
  }
}
