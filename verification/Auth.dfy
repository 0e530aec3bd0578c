/**
 * The mock session of src/contexts/AuthContext.tsx: login by looking up a
 * hard-coded account, logout, restoring the session from the browser's
 * key-value storage on start, and the derived isAuthenticated / isAdmin.
 * The storage is a map from keys to strings; JSON.parse is a parameter.
 */
module Auth {
  import opened Common

  datatype Role = Employee | Admin

  /** The user record the app keeps (the account without its password). */
  datatype User = User(id: string, name: string, email: string, department: string, role: Role)

  datatype Account = Account(user: User, password: string)

  /** `mockUsers`. */
  const MockAccounts: seq<Account> := [
    Account(User("1", "John Doe", "john@company.com", "Engineering", Employee), "password123"),
    Account(User("2", "Jane Smith", "jane@company.com", "HR", Admin), "admin123"),
    Account(User("3", "Mike Johnson", "mike@company.com", "Marketing", Employee), "password123")
  ]

  const TokenKey := "auth_token"
  const UserDataKey := "user_data"

  predicate Matches(a: Account, email: string, password: string)
  {
    a.user.email == email && a.password == password
  }

  /** `mockUsers.find(u => u.email === email && u.password === password)`, as an index. */
  function FindAccount(accounts: seq<Account>, email: string, password: string): (r: Option<nat>)
    ensures r.Some? ==> r.value < |accounts| && Matches(accounts[r.value], email, password)
    ensures r.Some? ==> forall j :: 0 <= j < r.value ==> !Matches(accounts[j], email, password)
    ensures r.None? ==> forall j :: 0 <= j < |accounts| ==> !Matches(accounts[j], email, password)
    decreases |accounts|
  {
    if accounts == [] then None
    else if Matches(accounts[0], email, password) then Some(0)
    else match FindAccount(accounts[1..], email, password)
      case None => None
      case Some(i) => Some(i + 1)
  }

  /** No two mock accounts share an email. */
  lemma MockEmailsDistinct()
    ensures forall i, j :: 0 <= i < j < |MockAccounts| ==> MockAccounts[i].user.email != MockAccounts[j].user.email
  {
  }

  /** Since emails are distinct, at most one account can match, and the lookup finds it. */
  lemma LoginMatchIsUnique(email: string, password: string, i: nat)
    requires i < |MockAccounts| && Matches(MockAccounts[i], email, password)
    ensures FindAccount(MockAccounts, email, password) == Some(i)
  {
    MockEmailsDistinct();
  }

  /** `mock_jwt_token_${foundUser.id}` */
  function Token(u: User): string
  {
    "mock_jwt_token_" + u.id
  }

  /** Two users get the same token exactly when they have the same id. */
  lemma TokenInjective(a: User, b: User)
    ensures Token(a) == Token(b) <==> a.id == b.id
  {
    if Token(a) == Token(b) {
      assert Token(a)[15..] == a.id && Token(b)[15..] == b.id;
    }
  }

  function RoleName(r: Role): string
  {
    match r
    case Employee => "employee"
    case Admin => "admin"
  }

  /** `JSON.stringify` of a user record, keys in declaration order (no value of a mock user needs escaping). */
  function UserJson(u: User): (r: string)
    ensures |r| > 0
  {
    "{\"id\":\"" + u.id + "\",\"name\":\"" + u.name + "\",\"email\":\"" + u.email +
    "\",\"department\":\"" + u.department + "\",\"role\":\"" + RoleName(u.role) + "\"}"
  }

  /** What `JSON.parse` can do with the stored string: throw, give `null`, or give a user record. */
  datatype Parsed = ParseError | ParsedNull | ParsedUser(user: User)

  /** The storage after a successful login: the token and the user record are written. */
  function LoginStorage(storage: map<string, string>, u: User): (r: map<string, string>)
    ensures r.Keys == storage.Keys + {TokenKey, UserDataKey}
    ensures r[TokenKey] == Token(u) && r[UserDataKey] == UserJson(u)
    ensures forall k :: k in storage && k != TokenKey && k != UserDataKey ==> r[k] == storage[k]
  {
    storage[TokenKey := Token(u)][UserDataKey := UserJson(u)]
  }

  /** The storage after logout, or after a failed restore: both keys are removed, nothing else changes. */
  function ClearSession(storage: map<string, string>): (r: map<string, string>)
    ensures r.Keys == storage.Keys - {TokenKey, UserDataKey}
    ensures forall k :: k in r ==> r[k] == storage[k]
  {
    storage - {TokenKey, UserDataKey}
  }

  /** A stored value is truthy: present and not the empty string. */
  predicate Truthy(storage: map<string, string>, key: string)
  {
    key in storage && storage[key] != ""
  }

  datatype Session = Session(user: Option<User>, storage: map<string, string>)

  /**
   * The start-up effect: when both keys hold a non-empty value the user
   * record is parsed; a parse error removes both keys and leaves no user.
   */
  function RestoreSession(storage: map<string, string>, parse: string -> Parsed): (s: Session)
    ensures s.user.Some? <==> Truthy(storage, TokenKey) && Truthy(storage, UserDataKey) && parse(storage[UserDataKey]).ParsedUser?
    ensures s.user.Some? ==> s.user.value == parse(storage[UserDataKey]).user
    ensures s.storage == if Truthy(storage, TokenKey) && Truthy(storage, UserDataKey) && parse(storage[UserDataKey]).ParseError?
                         then ClearSession(storage) else storage
  {
    if Truthy(storage, TokenKey) && Truthy(storage, UserDataKey) then
      match parse(storage[UserDataKey])
      case ParseError => Session(None, ClearSession(storage))
      case ParsedNull => Session(None, storage)
      case ParsedUser(u) => Session(Some(u), storage)
    else Session(None, storage)
  }

  /** A session written by login is restored to the same user, given a parse that reads back what stringify wrote. */
  lemma RestoreAfterLogin(storage: map<string, string>, u: User, parse: string -> Parsed)
    requires parse(UserJson(u)) == ParsedUser(u)
    ensures RestoreSession(LoginStorage(storage, u), parse) == Session(Some(u), LoginStorage(storage, u))
  {
  }

  /** After logout nothing is restored. */
  lemma RestoreAfterLogout(storage: map<string, string>, parse: string -> Parsed)
    ensures RestoreSession(ClearSession(storage), parse) == Session(None, ClearSession(storage))
  {
  }

  /** `isAuthenticated: !!user` */
  predicate IsAuthenticated(user: Option<User>)
  {
    user.Some?
  }

  /** `isAdmin: user?.role === 'admin'` */
  predicate IsAdmin(user: Option<User>)
  {
    user.Some? && user.value.role == Admin
  }

  /** Only a signed-in user can be an admin. */
  lemma AdminIsAuthenticated(user: Option<User>)
    ensures IsAdmin(user) ==> IsAuthenticated(user)
  {
  }

  /** The provider's state: the current user, the loading flag and the storage. */
  class AuthProvider {
    var user: Option<User>
    var isLoading: bool
    var storage: map<string, string>

    /** Mounting: no user yet, loading, over the browser's storage. */
    constructor (initialStorage: map<string, string>)
      ensures user == None && isLoading && storage == initialStorage
    {
      user, isLoading, storage := None, true, initialStorage;
    }

    /**
     * The `useEffect` run once on mount, while no user is set. When nothing is
     * restored the code leaves `user` as it was, which at mount is no user.
     */
    method Start(parse: string -> Parsed)
      requires isLoading && user == None
      modifies this
      ensures Session(user, storage) == RestoreSession(old(storage), parse)
      ensures !isLoading
    {
      var s := RestoreSession(storage, parse);
      user, storage := s.user, s.storage;
      isLoading := false;
    }

    /** `login`: succeeds iff some mock account has this email and password. The pages that call it are rendered only after loading ends. */
    method Login(email: string, password: string) returns (ok: bool)
      requires !isLoading
      modifies this
      ensures ok <==> FindAccount(MockAccounts, email, password).Some?
      ensures ok ==>
        var u := MockAccounts[FindAccount(MockAccounts, email, password).value].user;
        user == Some(u) && storage == LoginStorage(old(storage), u)
      ensures !ok ==> user == old(user) && storage == old(storage)
      ensures isLoading == old(isLoading)
    {
      var found := FindAccount(MockAccounts, email, password);
      if found.Some? {
        var u := MockAccounts[found.value].user;
        storage := LoginStorage(storage, u);
        user := Some(u);
        ok := true;
      } else {
        ok := false;
      }
    }

    /** `logout`: both keys removed, no user. Callable only once loading has ended and the pages are rendered. */
    method Logout()
      requires !isLoading
      modifies this
      ensures user == None && storage == ClearSession(old(storage))
      ensures isLoading == old(isLoading)
    {
      storage := ClearSession(storage);
      user := None;
    }
  }
}
