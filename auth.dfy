/** The authentication service (`AuthProvider`): a credential dictionary from
    email to account and the current session. The dictionary and the session
    live in browser storage in the application; here they are the fields of
    one object. */
module Auth {

  import opened Options

  /** A registered account, as stored in the credential dictionary. */
  datatype Account = Account(id: string, email: string, name: string, password: string)

  /** The session record: an account without its password. */
  datatype User = User(id: string, email: string, name: string)

  /** `{ success: true }` or `{ success: false, error }`. */
  datatype AuthResult = Success | Failure(error: string)

  const EmailTaken := "Email já cadastrado"
  const InvalidCredentials := "Email ou senha inválidos"

  /** The session opened for an account: its id, email and name, never its password. */
  function SessionOf(a: Account): (u: User)
    ensures u.id == a.id && u.email == a.email && u.name == a.name
  {
    User(a.id, a.email, a.name)
  }

  class AuthService {
    /** `dualfin_users`: email to account. */
    var users: map<string, Account>
    /** `user`: the logged-in user, if any. */
    var user: Option<User>

    /** Every account is stored under its own email, and no two accounts share an id. */
    ghost predicate Valid()
      reads this
    {
      && (forall e :: e in users ==> users[e].email == e)
      && (forall e1, e2 :: e1 in users && e2 in users && e1 != e2 ==> users[e1].id != users[e2].id)
    }

    /** No account registered and nobody logged in. */
    constructor ()
      ensures Valid()
      ensures users == map[] && user == None
    {
      users := map[];
      user := None;
    }

    /** `signup(email, password, name)`; `newId` is the `crypto.randomUUID()` it draws. */
    method Signup(email: string, password: string, name: string, newId: string) returns (r: AuthResult)
      requires Valid()
      requires forall e :: e in users ==> users[e].id != newId
      modifies this
      ensures Valid()
      ensures email in old(users) ==> r == Failure(EmailTaken) && users == old(users) && user == old(user)
      ensures email !in old(users) ==>
        && r == Success
        && users == old(users)[email := Account(newId, email, name, password)]
        && user == Some(User(newId, email, name))
    {
      if email in users {
        return Failure(EmailTaken);
      }
      var account := Account(newId, email, name, password);
      users := users[email := account];
      user := Some(SessionOf(account));
      r := Success;
    }

    /** `login(email, password)`: one error for an unknown email and for a wrong password. */
    method Login(email: string, password: string) returns (r: AuthResult)
      requires Valid()
      modifies this`user
      ensures Valid()
      ensures r == Success <==> email in users && users[email].password == password
      ensures r != Success ==> r == Failure(InvalidCredentials) && user == old(user)
      ensures r == Success ==> user == Some(SessionOf(users[email])) && user.value.email == email
    {
      if email !in users || users[email].password != password {
        return Failure(InvalidCredentials);
      }
      user := Some(SessionOf(users[email]));
      r := Success;
    }

    /** `logout()`: clears the session whatever it was, so a second call changes nothing. */
    method Logout()
      requires Valid()
      modifies this`user
      ensures Valid()
      ensures user == None
    {
      user := None;
    }
  }

  /** Signing up and then logging in with the same email and password succeeds
      and opens a session for the id drawn at signup. */
  method SignupThenLogin(auth: AuthService, email: string, password: string, name: string, newId: string)
    returns (signedUp: AuthResult, loggedIn: AuthResult)
    requires auth.Valid()
    requires forall e :: e in auth.users ==> auth.users[e].id != newId
    modifies auth
    ensures auth.Valid()
    ensures signedUp == Success <==> email !in old(auth.users)
    ensures signedUp == Success ==> auth.users == old(auth.users)[email := Account(newId, email, name, password)]
    ensures signedUp == Success ==> loggedIn == Success && auth.user == Some(User(newId, email, name))
  {
    signedUp := auth.Signup(email, password, name, newId);
    loggedIn := auth.Login(email, password);
  }

  /** Logging out twice leaves the same state as logging out once. */
  method LogoutTwice(auth: AuthService)
    requires auth.Valid()
    modifies auth
    ensures auth.Valid()
    ensures auth.user == None && auth.users == old(auth.users)
  {
    auth.Logout();
    auth.Logout();
  }
}
