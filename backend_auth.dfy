/** The `/signup` and `/login` routes of the back end, over the user collection seen as a finite
    map from e-mail address to stored user. Looking a user up, saving one, comparing a password
    and signing a token are outside this model: the comparison and the signing are parameters,
    and a failure of the database is a flag. */
module BackendAuth {

  datatype StoredUser = StoredUser(
    id: nat, firstName: string, lastName: string, email: string, university: string,
    studentId: string, password: string, termsAccepted: bool)

  /** The user part of a successful login: everything but the id and the password. */
  datatype PublicUser = PublicUser(
    firstName: string, lastName: string, email: string, university: string, studentId: string,
    termsAccepted: bool)

  datatype Body = Message(message: string) | LoggedIn(token: string, user: PublicUser)

  datatype Response = Response(status: nat, body: Body)

  datatype SignupRequest = SignupRequest(
    firstName: string, lastName: string, email: string, university: string, studentId: string,
    password: string, termsAccepted: bool)

  type Users = map<string, StoredUser>

  const AlreadyExists := Response(400, Message("User already exists"))
  const Registered := Response(201, Message("User registered successfully"))
  const InvalidCredentials := Response(400, Message("Invalid credentials"))
  const ServerError := Response(500, Message("Server error"))

  /** The record `new User(...)` builds from the request. */
  function NewUser(req: SignupRequest, id: nat): (u: StoredUser)
    ensures u.email == req.email && u.password == req.password && u.id == id
    ensures u.firstName == req.firstName && u.lastName == req.lastName
    ensures u.university == req.university && u.studentId == req.studentId
    ensures u.termsAccepted == req.termsAccepted
  {
    StoredUser(id, req.firstName, req.lastName, req.email, req.university, req.studentId,
               req.password, req.termsAccepted)
  }

  /** The public view of a stored user. */
  function Public(u: StoredUser): (p: PublicUser)
    ensures p.firstName == u.firstName && p.lastName == u.lastName && p.email == u.email
    ensures p.university == u.university && p.studentId == u.studentId
    ensures p.termsAccepted == u.termsAccepted
  {
    PublicUser(u.firstName, u.lastName, u.email, u.university, u.studentId, u.termsAccepted)
  }

  /** `/login`. `compare(u, password)` stands for `u.comparePassword(password)` and `sign(id)`
      for the signed token; `fails` says that some step threw: the lookup, the comparison or,
      once the credentials matched, the signing (one missing `JWT_SECRET` is enough). Every such
      throw reaches the same 500. */
  function Login(users: Users, email: string, password: string,
                 compare: (StoredUser, string) -> bool, sign: nat -> string, fails: bool): (r: Response)
    ensures fails ==> r == ServerError
    ensures !fails && email !in users ==> r == InvalidCredentials
    ensures !fails && email in users && !compare(users[email], password) ==> r == InvalidCredentials
    ensures r.status == 200 <==> !fails && email in users && compare(users[email], password)
    ensures r.status == 200 ==>
      r.body == LoggedIn(sign(users[email].id), Public(users[email]))
  {
    if fails then ServerError
    else if email !in users then InvalidCredentials
    else if !compare(users[email], password) then InvalidCredentials
    else Response(200, LoggedIn(sign(users[email].id), Public(users[email])))
  }

  /** An unknown address and a wrong password get the same answer, so a caller cannot tell which
      addresses are registered. */
  lemma LoginFailuresIndistinguishable(users: Users, known: string, unknown: string, password: string,
                                       compare: (StoredUser, string) -> bool, sign: nat -> string)
    requires known in users && unknown !in users && !compare(users[known], password)
    ensures Login(users, known, password, compare, sign, false) == Login(users, unknown, password, compare, sign, false)
  {
  }

  /** No response carries a password: a login answer is built only from the public part, which
      does not change when only the stored password does. */
  lemma LoginNeverShowsPassword(users: Users, email: string, password: string, other: string,
                                compare: (StoredUser, string) -> bool, sign: nat -> string)
    requires email in users && compare(users[email], password)
    requires compare(users[email].(password := other), password)
    ensures Login(users[email := users[email].(password := other)], email, password, compare, sign, false)
         == Login(users, email, password, compare, sign, false)
  {
  }

  /** The user collection. */
  class Store {
    var users: Users

    constructor (initial: Users)
      ensures users == initial
    {
      users := initial;
    }

    /** `/signup`: `lookupFails` and `saveFails` say that `findOne` or `save` threw; `id` is the
        id `new User` is given. A known address is refused and stores nothing; a new one is
        stored exactly as sent, over nothing else. */
    method Signup(req: SignupRequest, id: nat, lookupFails: bool, saveFails: bool) returns (r: Response)
      modifies this
      ensures lookupFails ==> r == ServerError && users == old(users)
      ensures !lookupFails && req.email in old(users) ==> r == AlreadyExists && users == old(users)
      ensures !lookupFails && req.email !in old(users) && saveFails ==> r == ServerError && users == old(users)
      ensures !lookupFails && req.email !in old(users) && !saveFails ==>
        r == Registered && users == old(users)[req.email := NewUser(req, id)]
    {
      if lookupFails {
        return ServerError;
      }
      if req.email in users {
        return AlreadyExists;
      }
      var user := NewUser(req, id);
      if saveFails {
        return ServerError;
      }
      users := users[req.email := user];
      r := Registered;
    }
  }

  /** Signing up and then logging in with the same password (as the comparison sees it) returns a
      token for the new id and the details that were sent; signing up again with the same address
      is refused and leaves the first account in place. */
  method SignupThenLogin(initial: Users, req: SignupRequest, id: nat,
                         compare: (StoredUser, string) -> bool, sign: nat -> string)
    returns (first: Response, second: Response, login: Response)
    requires req.email !in initial
    requires compare(NewUser(req, id), req.password)
    ensures first == Registered && second == AlreadyExists
    ensures login == Response(200, LoggedIn(sign(id), PublicUser(req.firstName, req.lastName, req.email,
                                                                  req.university, req.studentId, req.termsAccepted)))
  {
    var store := new Store(initial);
    first := store.Signup(req, id, false, false);
    second := store.Signup(req, id + 1, false, false);
    login := Login(store.users, req.email, req.password, compare, sign, false);
  }
}
