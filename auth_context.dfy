/** `AuthProvider`: the signed-in user, the loading flag of the startup check, and the one
    persisted storage slot ("eventwall_user") that mirrors the user. The slot is an `Option`
    holding the stored user; whether parsing it back fails is a parameter. */
module AuthContext {
  import opened Wrappers
  import opened Records
  import opened Text

  type User = Record

  /** The only e-mail address the demo login accepts. */
  const MockEmail: string := "john.doe@university.edu"

  /** The demo user's properties other than `createdAt`. */
  const MockProfile: User := map[
    "id" := Str("1"),
    "email" := Str(MockEmail),
    "firstName" := Str("John"),
    "lastName" := Str("Doe"),
    "university" := Str("Stanford University"),
    "studentId" := Str("12345678"),
    "bio" := Str("Computer Science student passionate about AI and web development."),
    "year" := Str("Junior"),
    "major" := Str("Computer Science"),
    "skills" := Strs(["JavaScript", "React", "Python", "Machine Learning"]),
    "interests" := Str("Building innovative solutions to real-world problems"),
    "githubUsername" := Str("johndoe"),
    "linkedinUrl" := Str("https://linkedin.com/in/johndoe"),
    "portfolioUrl" := Str("https://johndoe.dev"),
    "profileImage" := Str("https://images.unsplash.com/photo-1472099645785-5658abf4ff4e?w=100&h=100&fit=crop&crop=face")
  ]

  /** The demo user; `createdAt` is the moment the module was loaded. */
  function MockUser(loadedAt: int): User {
    MockProfile["createdAt" := Stamp(loadedAt)]
  }

  /** `{ id: Date.now().toString(), ...userData, createdAt: new Date() }` with `now` for both
      clock readings: the supplied fields are all kept, a supplied `id` overrides the fresh one,
      and `createdAt` is always the creation time. */
  function CreatedUser(data: Record, now: int): (u: User)
    ensures u.Keys == data.Keys + {"id", "createdAt"}
    ensures u["createdAt"] == Stamp(now)
    ensures u["id"] == if "id" in data then data["id"] else Str(IntToString(now))
    ensures forall k :: k in data && k != "createdAt" ==> u[k] == data[k]
  {
    Merge(Merge(map["id" := Str(IntToString(now))], data), map["createdAt" := Stamp(now)])
  }

  class AuthProvider {
    var user: Option<User>
    var isLoading: bool
    /** The persisted slot: `Some(u)` after `setItem` with `u`, `None` after `removeItem`. */
    var slot: Option<User>
    const mock: User

    /** `!!user`. */
    function IsAuthenticated(): bool
      reads this
    {
      user.Some?
    }

    /** The slot holds exactly the current user, or nothing when there is none. */
    ghost predicate Mirrored()
      reads this
    {
      slot == user
    }

    /** First render: no user yet, loading, and whatever an earlier session left in storage. */
    constructor (stored: Option<User>, loadedAt: int)
      ensures user == None && isLoading && slot == stored && mock == MockUser(loadedAt)
      ensures !IsAuthenticated()
    {
      user := None;
      isLoading := true;
      slot := stored;
      mock := MockUser(loadedAt);
    }

    /** The startup effect: a present slot that parses restores the user; a missing slot or a
        parse failure leaves the user as it was; loading ends in every case. */
    method CheckAuthStatus(parseFails: bool)
      modifies this
      ensures !isLoading && slot == old(slot)
      ensures old(slot).Some? && !parseFails ==> user == old(slot)
      ensures old(slot).None? || parseFails ==> user == old(user)
    {
      if slot.Some? {
        if !parseFails {
          user := slot;
        }
      }
      isLoading := false;
    }

    /** `login`: the password is ignored; the mock e-mail installs and stores the mock user; any
        other e-mail throws and changes nothing. */
    method Login(email: string, password: string) returns (ok: bool)
      modifies this
      ensures ok <==> email == MockEmail
      ensures ok ==> user == Some(mock) && slot == Some(mock) && Mirrored()
      ensures !ok ==> user == old(user) && slot == old(slot)
      ensures isLoading == old(isLoading)
    {
      if email == MockEmail {
        user := Some(mock);
        slot := Some(mock);
        ok := true;
      } else {
        ok := false;
      }
    }

    /** `logout`: no user and an empty slot. */
    method Logout()
      modifies this
      ensures user == None && slot == None && Mirrored() && !IsAuthenticated()
      ensures isLoading == old(isLoading)
    {
      user := None;
      slot := None;
    }

    /** `updateUser`: without a user nothing happens; otherwise the given fields override the
        user's and the result is stored. */
    method UpdateUser(partial: Record)
      modifies this
      ensures old(user).None? ==> user == None && slot == old(slot)
      ensures old(user).Some? ==> user == Some(Merge(old(user).value, partial)) && Mirrored()
      ensures isLoading == old(isLoading)
    {
      if user.Some? {
        var updatedUser := Merge(user.value, partial);
        user := Some(updatedUser);
        slot := Some(updatedUser);
      }
    }

    /** `createUser`: installs and stores the created user. */
    method CreateUser(data: Record, now: int)
      modifies this
      ensures user == Some(CreatedUser(data, now)) && Mirrored() && IsAuthenticated()
      ensures isLoading == old(isLoading)
    {
      var newUser := CreatedUser(data, now);
      user := Some(newUser);
      slot := Some(newUser);
    }
  }

  /** A session survives a page reload: after creating an account and editing the profile, a
      fresh provider started on the storage left behind restores the same user. */
  method ReloadAfterCreate(data: Record, partial: Record, now: int, loadedAt: int)
    returns (before: Option<User>, after: Option<User>)
    ensures before == Some(Merge(CreatedUser(data, now), partial))
    ensures after == before
  {
    var first := new AuthProvider(None, loadedAt);
    first.CheckAuthStatus(false);
    first.CreateUser(data, now);
    first.UpdateUser(partial);
    before := first.user;
    var second := new AuthProvider(first.slot, loadedAt);
    second.CheckAuthStatus(false);
    after := second.user;
  }

  /** Logging in and reloading: after a matching login the next page restores the mock user;
      after a failed one it restores the stored session, or nobody when the stored text does
      not parse (it is the same text on both loads, so it fails on both); logging out before
      the reload always starts the next page signed out. */
  method ReloadAfterLogin(stored: Option<User>, storedUnreadable: bool, email: string, password: string,
                          logoutFirst: bool, loadedAt: int)
    returns (ok: bool, restored: Option<User>)
    ensures ok <==> email == MockEmail
    ensures logoutFirst ==> restored == None
    ensures !logoutFirst && ok ==> restored == Some(MockUser(loadedAt))
    ensures !logoutFirst && !ok ==> restored == if storedUnreadable then None else stored
  {
    var first := new AuthProvider(stored, loadedAt);
    first.CheckAuthStatus(storedUnreadable);
    ok := first.Login(email, password);
    if logoutFirst {
      first.Logout();
    }
    // The slot still holds the stored text only when neither the login nor a logout rewrote it.
    var second := new AuthProvider(first.slot, loadedAt);
    second.CheckAuthStatus(storedUnreadable && !ok && !logoutFirst);
    restored := second.user;
  }
}
