/** The authentication context: the three built-in accounts, credential
    matching for `login`, the e-mail uniqueness check of `signup`, `logout`,
    and the `user` / `isLoading` state the rest of the dashboard reads. The
    browser's `localStorage` entry "user" is the field `storedUser`. */
module AuthContext {

  import opened Wrappers
  import opened Text
  import opened Seqs

  datatype Role = Admin | EndUser | Support

  /** The `UserRole` string literal. */
  function RoleName(r: Role): string {
    match r
    case Admin => "admin"
    case EndUser => "user"
    case Support => "support"
  }

  /** The signed-in user; it carries no password. */
  datatype User = User(id: string, name: string, email: string, role: Role)

  datatype MockUser = MockUser(id: string, name: string, email: string, password: string, role: Role)

  const MockUsers: seq<MockUser> := [
    MockUser("1", "Admin User", "admin@example.com", "password123", Admin),
    MockUser("2", "Regular User", "user@example.com", "password123", EndUser),
    MockUser("3", "Support Staff", "support@example.com", "password123", Support)
  ]

  const InvalidCredentials: string := "Invalid email or password"
  const EmailInUse: string := "Email already in use"

  /** `mockUsers.find(u => u.email === email && u.password === password)`. */
  function MatchCredentials(users: seq<MockUser>, email: string, password: string): (r: Option<MockUser>)
    ensures r.None? <==> forall u :: u in users ==> !(u.email == email && u.password == password)
    ensures r.Some? ==> r.value in users && r.value.email == email && r.value.password == password
    ensures r.Some? ==> exists k :: (0 <= k < |users| && users[k] == r.value &&
                                     forall j :: 0 <= j < k ==> !(users[j].email == email && users[j].password == password))
  {
    Find(users, (u: MockUser) => u.email == email && u.password == password)
  }

  /** `mockUsers.some(u => u.email === email)`: some account has that
      e-mail address, the first one found being the one a lookup by e-mail
      returns. */
  function EmailTaken(users: seq<MockUser>, email: string): (b: bool)
    ensures b <==> exists u :: u in users && u.email == email
    ensures b <==> Find(users, (u: MockUser) => u.email == email).Some?
  {
    exists k :: 0 <= k < |users| && users[k].email == email
  }

  /** The authenticated user built from a matched account: exactly its id,
      name, e-mail and role. */
  function AsUser(m: MockUser): (u: User)
    ensures u.id == m.id && u.name == m.name && u.email == m.email && u.role == m.role
  {
    User(m.id, m.name, m.email, m.role)
  }

  /** The built-in accounts have pairwise distinct e-mail addresses, so a
      matching pair of credentials picks out a single account. */
  lemma MockEmailsDistinct()
    ensures forall i, j :: 0 <= i < j < |MockUsers| ==> MockUsers[i].email != MockUsers[j].email
  {
  }

  /** At most one built-in account matches any credentials. */
  lemma MatchIsUnique(email: string, password: string, m: MockUser)
    requires m in MockUsers && m.email == email && m.password == password
    ensures MatchCredentials(MockUsers, email, password) == Some(m)
  {
    MockEmailsDistinct();
    var r := MatchCredentials(MockUsers, email, password);
    assert r.Some?;
  }

  /** The id `signup` gives a new account, `(mockUsers.length + 1).toString()`;
      the account list never grows, so it is always "4". */
  function SignupId(): (id: string)
    ensures id == "4"
  {
    NatToString(|MockUsers| + 1)
  }

  class AuthProvider {
    var user: Option<User>
    var isLoading: bool
    /** The "user" entry of `localStorage`. */
    var storedUser: Option<User>

    /** The provider as first rendered: no user yet, loading, with whatever the
        browser had stored. */
    constructor (storage: Option<User>)
      ensures user == None && isLoading && storedUser == storage
    {
      user := None;
      isLoading := true;
      storedUser := storage;
    }

    /** `!!user`: someone is signed in. */
    function IsAuthenticated(): (b: bool)
      reads this
      ensures b <==> user != None
    {
      user.Some?
    }

    /** The mount effect: restore a stored user and stop loading. */
    method RestoreSession()
      modifies this
      ensures storedUser.Some? ==> user == storedUser
      ensures storedUser.None? ==> user == old(user)
      ensures storedUser == old(storedUser) && !isLoading
    {
      if storedUser.Some? {
        user := storedUser;
      }
      isLoading := false;
    }

    /** `login`: succeeds exactly when a built-in account matches both e-mail
        and password, and then signs in the first such account; otherwise
        fails with "Invalid email or password" and leaves the user as it was.
        Loading ends either way. */
    method Login(email: string, password: string) returns (result: Outcome<string>)
      modifies this
      ensures !isLoading
      ensures result.Pass? <==> exists u :: u in MockUsers && u.email == email && u.password == password
      ensures result.Fail? ==> result.error == InvalidCredentials && user == old(user) && storedUser == old(storedUser)
      ensures result.Pass? ==> (MatchCredentials(MockUsers, email, password).Some? &&
                                user == Some(AsUser(MatchCredentials(MockUsers, email, password).value)) &&
                                storedUser == user)
    {
      isLoading := true;
      var matched := MatchCredentials(MockUsers, email, password);
      if matched.None? {
        result := Fail(InvalidCredentials);
      } else {
        var authenticated := AsUser(matched.value);
        user := Some(authenticated);
        storedUser := Some(authenticated);
        result := Pass;
      }
      isLoading := false;
    }

    /** `signup`: fails with "Email already in use" when a built-in account
        has the e-mail, leaving the user as it was; otherwise signs in a new
        `user`-role account with id "4". The password is not kept. Loading
        ends either way. */
    method Signup(name: string, email: string, password: string) returns (result: Outcome<string>)
      modifies this
      ensures !isLoading
      ensures result.Fail? <==> EmailTaken(MockUsers, email)
      ensures result.Fail? ==> result.error == EmailInUse && user == old(user) && storedUser == old(storedUser)
      ensures result.Pass? ==> user == Some(User("4", name, email, EndUser)) && storedUser == user
    {
      isLoading := true;
      if EmailTaken(MockUsers, email) {
        result := Fail(EmailInUse);
      } else {
        var newUser := User(SignupId(), name, email, EndUser);
        user := Some(newUser);
        storedUser := Some(newUser);
        result := Pass;
      }
      isLoading := false;
    }

    /** `logout`: no user, nothing stored. */
    method Logout()
      modifies this
      ensures user == None && !IsAuthenticated() && storedUser == None
      ensures isLoading == old(isLoading)
    {
      user := None;
      storedUser := None;
    }
  }
}
