/**
 * `AuthService`: the user table with unique emails, registration and login.
 * Password encoding and matching (BCrypt) and token minting (JWT) are
 * foreign libraries and enter as uninterpreted functions.
 */
module Auth {
  import opened Wrappers

  const EmailExists := "Email already exists"
  const InvalidCredentials := "Invalid credentials"

  datatype User = User(id: int, email: string, passwordHash: string)

  datatype RegisterRequest = RegisterRequest(email: string, password: string)
  datatype LoginRequest = LoginRequest(email: string, password: string)
  datatype AuthResponse = AuthResponse(token: string, userId: int, email: string)

  /** No two users share an email. */
  predicate UniqueEmails(users: map<int, User>) {
    forall a, b :: a in users && b in users && users[a].email == users[b].email ==> a == b
  }

  /** The user table invariant: ids are the keys and below the next id the store assigns; emails are unique. */
  predicate WellFormed(users: map<int, User>, nextId: int) {
    && 1 <= nextId
    && (forall k :: k in users ==> 1 <= k < nextId && users[k].id == k)
    && UniqueEmails(users)
  }

  /** The user with that email among the ids in `[lo, hi)`, scanning upwards. */
  function Search(users: map<int, User>, email: string, lo: int, hi: int): (r: Option<User>)
    requires forall k :: k in users ==> users[k].id == k
    ensures r.Some? <==> exists k :: lo <= k < hi && k in users && users[k].email == email
    ensures r.Some? ==> lo <= r.value.id < hi && r.value.id in users
    ensures r.Some? ==> users[r.value.id] == r.value && r.value.email == email
    decreases hi - lo
  {
    if hi <= lo then None
    else if lo in users && users[lo].email == email then Some(users[lo])
    else Search(users, email, lo + 1, hi)
  }

  /** `userRepository.findByEmail`: the one user with that email, if any. */
  function FindByEmail(users: map<int, User>, nextId: int, email: string): (r: Option<User>)
    requires WellFormed(users, nextId)
    ensures r.Some? <==> exists k :: k in users && users[k].email == email
    ensures r.Some? ==> r.value.id in users && users[r.value.id] == r.value && r.value.email == email
  {
    Search(users, email, 1, nextId)
  }

  /** The outcome of `register`: the response or the error, and the user table afterwards. */
  datatype Registered = Registered(result: Result<AuthResponse, string>, users: map<int, User>, nextId: int)

  /**
   * `register`, with `hash` the encoder's output for the request's password:
   * a taken email is refused and nothing is added; otherwise one user is
   * added under the next id with that hash, and the token is minted for it.
   */
  function RegisterOutcome(users: map<int, User>, nextId: int, req: RegisterRequest, hash: string,
                    generateToken: (int, string) -> string): (r: Registered)
    requires WellFormed(users, nextId)
    ensures WellFormed(r.users, r.nextId)
    ensures r.result.Failure? <==> exists k :: k in users && users[k].email == req.email
    ensures r.result.Failure? ==> r == Registered(Failure(EmailExists), users, nextId)
    ensures r.result.Success? ==>
      && nextId !in users
      && r.users == users[nextId := User(nextId, req.email, hash)]
      && r.nextId == nextId + 1
      && r.result.value == AuthResponse(generateToken(nextId, req.email), nextId, req.email)
  {
    if FindByEmail(users, nextId, req.email).Some? then Registered(Failure(EmailExists), users, nextId)
    else
      var u := User(nextId, req.email, hash);
      Registered(Success(AuthResponse(generateToken(u.id, u.email), u.id, u.email)), users[nextId := u], nextId + 1)
  }

  /**
   * `login`: the same "Invalid credentials" error for an unknown email and a
   * wrong password; on success the user's id and email with a token minted for them.
   */
  function LoginOutcome(users: map<int, User>, nextId: int, req: LoginRequest,
                 matches: (string, string) -> bool, generateToken: (int, string) -> string): (r: Result<AuthResponse, string>)
    requires WellFormed(users, nextId)
    ensures r.Failure? ==> r.error == InvalidCredentials
    ensures r.Success? <==> exists k :: k in users && users[k].email == req.email && matches(req.password, users[k].passwordHash)
    ensures r.Success? ==>
      && r.value.userId in users
      && users[r.value.userId].email == req.email == r.value.email
      && r.value.token == generateToken(r.value.userId, req.email)
  {
    match FindByEmail(users, nextId, req.email)
    case None => Failure(InvalidCredentials)
    case Some(u) =>
      if !matches(req.password, u.passwordHash) then Failure(InvalidCredentials)
      else Success(AuthResponse(generateToken(u.id, u.email), u.id, u.email))
  }

  /** A user who has just registered can log in with the same password, when the encoder's output matches it. */
  lemma RegisterThenLogin(users: map<int, User>, nextId: int, email: string, password: string, hash: string,
                          matches: (string, string) -> bool, generateToken: (int, string) -> string)
    requires WellFormed(users, nextId)
    requires matches(password, hash)
    ensures var r := RegisterOutcome(users, nextId, RegisterRequest(email, password), hash, generateToken);
      r.result.Success? ==>
        LoginOutcome(r.users, r.nextId, LoginRequest(email, password), matches, generateToken) == Success(r.result.value)
  {
    var r := RegisterOutcome(users, nextId, RegisterRequest(email, password), hash, generateToken);
    if r.result.Success? {
      var found := FindByEmail(r.users, r.nextId, email);
      assert r.users[nextId].email == email;
      assert found.Some? && found.value.id == nextId;
      assert found.value == User(nextId, email, hash);
    }
  }

  class AuthService {
    /** `passwordEncoder.encode`: BCrypt of a password under a salt drawn at random. */
    const encode: (string, string) -> string
    /** `passwordEncoder.matches`. */
    const matches: (string, string) -> bool
    /** `jwtService.generateToken`. */
    const generateToken: (int, string) -> string

    var users: map<int, User>
    var nextId: int

    ghost predicate Valid()
      reads this
    {
      WellFormed(users, nextId)
    }

    /** An empty user table over the given encoder and token service. */
    constructor (encode: (string, string) -> string, matches: (string, string) -> bool,
                 generateToken: (int, string) -> string)
      ensures Valid() && users == map[] && nextId == 1
      ensures this.encode == encode && this.matches == matches && this.generateToken == generateToken
    {
      this.encode, this.matches, this.generateToken := encode, matches, generateToken;
      users, nextId := map[], 1;
    }

    /** `register`; the random salt is a parameter. */
    method Register(req: RegisterRequest, salt: string) returns (r: Result<AuthResponse, string>)
      requires Valid()
      modifies this
      ensures Valid()
      ensures Registered(r, users, nextId)
        == RegisterOutcome(old(users), old(nextId), req, encode(req.password, salt), generateToken)
    {
      var existing := FindByEmail(users, nextId, req.email);
      if existing.Some? {
        return Failure(EmailExists);
      }
      var user := User(0, req.email, encode(req.password, salt));
      user := user.(id := nextId);
      users := users[nextId := user];
      nextId := nextId + 1;
      var token := generateToken(user.id, user.email);
      r := Success(AuthResponse(token, user.id, user.email));
    }

    /** `login`: reads the table and changes nothing. */
    method Login(req: LoginRequest) returns (r: Result<AuthResponse, string>)
      requires Valid()
      ensures r == LoginOutcome(users, nextId, req, matches, generateToken)
    {
      var found := FindByEmail(users, nextId, req.email);
      if found.None? {
        return Failure(InvalidCredentials);
      }
      var user := found.value;
      if !matches(req.password, user.passwordHash) {
        return Failure(InvalidCredentials);
      }
      var token := generateToken(user.id, user.email);
      r := Success(AuthResponse(token, user.id, user.email));
    }
  }
}
