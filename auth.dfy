/**
 * The authentication controller of the Express server: a module-level,
 * in-memory list of users, `register` (hash the password and append a record)
 * and `login` (look up the first record with the name, compare the password
 * with its hash, and sign a token over the name).
 *
 * bcrypt and jsonwebtoken are foreign libraries. Their three calls are the
 * fields of a `Crypto` value; the only thing assumed of them is `Sound`,
 * that `compare` accepts a password against any hash made from it. bcrypt's
 * random salt is an explicit argument of `hash`, and the current time that
 * `jwt.sign` stamps into a token (its `iat`) is an explicit argument of `sign`.
 */
module AuthController {
  import opened Wrappers
  import opened Seqs

  /** The salt bcrypt draws at random for each hash. */
  type Salt = string

  /** The cost factor passed to `bcrypt.hash`. */
  const SaltRounds := 10

  /** The `expiresIn` option passed to `jwt.sign`; the token expires this long after its `iat`. */
  const TokenLifetime := "1h"

  /** The payload `{ username }` a token is signed over. */
  datatype Claims = Claims(username: string)

  datatype Crypto = Crypto(
    hash: (string, int, Salt) -> string,
    compare: (string, string) -> bool,
    sign: (Claims, string, string, int) -> string)

  /** `bcrypt.compare(p, h)` holds whenever `h` was produced by `bcrypt.hash(p, …)`. */
  ghost predicate Sound(c: Crypto) {
    forall p, rounds, salt :: c.compare(p, c.hash(p, rounds, salt))
  }

  /** A stored record `{ username, password: hashed }`. */
  datatype User = User(username: string, password: string)

  datatype Body = Message(message: string) | TokenBody(token: string)

  datatype Response = Response(status: nat, body: Body)

  const Registered := Response(201, Message("User registered successfully"))

  const InvalidCredentials := Response(400, Message("Invalid credentials"))

  /** The index of the record `users.find(u => u.username === username)` returns. */
  function FirstUser(users: seq<User>, username: string): (r: Option<nat>)
    ensures r.Some? ==> r.value < |users| && users[r.value].username == username &&
                        forall j :: 0 <= j < r.value ==> users[j].username != username
    ensures r.None? <==> forall j :: 0 <= j < |users| ==> users[j].username != username
  {
    FindIndex((u: User) => u.username == username, users)
  }

  /** The credentials are accepted: the first record with the name holds a hash `compare` accepts. */
  predicate Accepts(c: Crypto, users: seq<User>, username: string, password: string): (b: bool)
    ensures b ==> exists u :: u in users && u.username == username && c.compare(password, u.password)
  {
    match FirstUser(users, username)
    case None => false
    case Some(i) => c.compare(password, users[i].password)
  }

  class Controller {
    const crypto: Crypto
    /** The value of `process.env.JWT_SECRET`, which `login` reads on every call, assumed fixed while the process runs. */
    const secret: string
    var users: seq<User>

    ghost predicate Valid()
      reads this
    {
      Sound(crypto)
    }

    constructor (crypto: Crypto, secret: string)
      requires Sound(crypto)
      ensures Valid()
      ensures this.crypto == crypto && this.secret == secret && users == []
    {
      this.crypto := crypto;
      this.secret := secret;
      users := [];
    }

    /** `register`: no uniqueness check, so a repeated name is appended like any other. */
    method Register(username: string, password: string, salt: Salt) returns (resp: Response)
      requires Valid()
      modifies this
      ensures Valid()
      ensures users == old(users) + [User(username, crypto.hash(password, SaltRounds, salt))]
      ensures resp == Registered
    {
      var hashed := crypto.hash(password, SaltRounds, salt);
      users := users + [User(username, hashed)];
      resp := Registered;
    }

    /**
     * `login`. It has no `modifies` clause: a login changes nothing. An unknown
     * name and a wrong password give the same response.
     */
    method Login(username: string, password: string, issuedAt: int) returns (resp: Response)
      ensures resp.status == 200 <==> Accepts(crypto, users, username, password)
      ensures resp.status == 200 ==> resp.body == TokenBody(crypto.sign(Claims(username), secret, TokenLifetime, issuedAt))
      ensures resp.status != 200 ==> resp == InvalidCredentials
      ensures FirstUser(users, username).None? ==> resp == InvalidCredentials
    {
      var user := FirstUser(users, username);
      if user.None? {
        return InvalidCredentials;
      }
      var isMatch := crypto.compare(password, users[user.value].password);
      if !isMatch {
        return InvalidCredentials;
      }
      var token := crypto.sign(Claims(username), secret, TokenLifetime, issuedAt);
      resp := Response(200, TokenBody(token));
    }
  }

  /** Only the first record with a name decides a login; records appended later for that name are never consulted. */
  lemma AcceptsIffFirstRecordMatches(c: Crypto, users: seq<User>, username: string, password: string)
    ensures Accepts(c, users, username, password) <==>
            exists i :: 0 <= i < |users| && users[i].username == username &&
                        (forall j :: 0 <= j < i ==> users[j].username != username) &&
                        c.compare(password, users[i].password)
  {
    if !Accepts(c, users, username, password) {
      forall i | 0 <= i < |users| && users[i].username == username &&
                 (forall j :: 0 <= j < i ==> users[j].username != username)
        ensures !c.compare(password, users[i].password)
      {
        var k := FirstUser(users, username).value;
        assert !(k < i) && !(i < k);
      }
    }
  }

  /** Registering an existing name again leaves every login for that name as it was. */
  lemma ReRegisterKeepsLogin(c: Crypto, users: seq<User>, username: string, password: string, rec: User)
    requires FirstUser(users, username).Some?
    ensures FirstUser(users + [rec], username) == FirstUser(users, username)
    ensures Accepts(c, users + [rec], username, password) == Accepts(c, users, username, password)
  {
    FindIndexAppend((u: User) => u.username == username, users, [rec]);
    var i := FirstUser(users, username).value;
    assert (users + [rec])[i] == users[i];
  }

  /** Registering a record never changes the login of any other name. */
  lemma RegisterKeepsOtherLogins(c: Crypto, users: seq<User>, username: string, password: string, rec: User)
    requires rec.username != username
    ensures Accepts(c, users + [rec], username, password) == Accepts(c, users, username, password)
  {
    var p := (u: User) => u.username == username;
    if FirstUser(users, username).Some? {
      ReRegisterKeepsLogin(c, users, username, password, rec);
    } else {
      assert !p((users + [rec])[|users|]);
      assert forall j :: 0 <= j < |users| ==> (users + [rec])[j] == users[j];
      assert FirstUser(users + [rec], username).None?;
    }
  }

  /** Round trip: the password of a freshly registered name logs in. */
  lemma RegisterThenAccepts(c: Crypto, users: seq<User>, username: string, password: string, salt: Salt)
    requires Sound(c)
    requires FirstUser(users, username).None?
    ensures Accepts(c, users + [User(username, c.hash(password, SaltRounds, salt))], username, password)
  {
    var rec := User(username, c.hash(password, SaltRounds, salt));
    FindIndexAppendMiss((u: User) => u.username == username, users, rec);
    assert (users + [rec])[|users|] == rec;
  }

  /** Registering a fresh name and logging in with the same password returns a token signed over the name. */
  method RegisterThenLogin(auth: Controller, username: string, password: string, salt: Salt, issuedAt: int)
    returns (resp: Response)
    requires auth.Valid() && FirstUser(auth.users, username).None?
    modifies auth
    ensures resp == Response(200, TokenBody(auth.crypto.sign(Claims(username), auth.secret, TokenLifetime, issuedAt)))
  {
    var _ := auth.Register(username, password, salt);
    RegisterThenAccepts(auth.crypto, old(auth.users), username, password, salt);
    resp := auth.Login(username, password, issuedAt);
  }
}
