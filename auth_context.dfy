/** The account store of contexts/AuthContext.tsx: the registered accounts
    kept in the "users" storage slot, the signed-in user kept in the "user"
    slot and in memory, and sign-up, log-in, log-out and profile edits. */
module AuthContext {
  import opened Types
  import opened JsNumber

  /** An account as stored, password included. */
  datatype StoredUser = StoredUser(id: string, email: string, password: string, name: string,
                                   avatar: Option<string>, phone: Option<string>, createdAt: string)

  /** The signed-in user as the pages see it: no password. */
  datatype User = User(id: string, email: string, name: string,
                       avatar: Option<string>, phone: Option<string>, createdAt: string)

  /** `Partial<User>`: the fields an edit sets; `None` is a field left out. */
  datatype ProfileChange = ProfileChange(id: Option<string>, email: Option<string>, name: Option<string>,
                                         avatar: Option<string>, phone: Option<string>, createdAt: Option<string>)

  /** The "user" slot: nothing, text that does not parse, or a user. */
  datatype UserSlot = NoUser | Corrupt | Saved(user: User)

  /** What an operation ends with: success, the message of the error it
      throws (and shows), or the error of a storage write that threw (its
      message is the browser's, so it is not modelled). */
  datatype Outcome = Done | Failed(message: string) | WriteFailed

  /** The user built from a stored account. */
  function PublicView(s: StoredUser): User
  {
    User(s.id, s.email, s.name, s.avatar, s.phone, s.createdAt)
  }

  /** `storedUsers.find(u => u.email === email && u.password === password)`. */
  function FindByCredentials(users: seq<StoredUser>, email: string, password: string): (r: Option<StoredUser>)
    ensures r.None? <==> forall u :: u in users ==> !(u.email == email && u.password == password)
    ensures r.Some? ==> r.value in users && r.value.email == email && r.value.password == password
    ensures r.Some? ==> exists k :: (0 <= k < |users| && users[k] == r.value &&
      forall j :: 0 <= j < k ==> !(users[j].email == email && users[j].password == password))
  {
    if users == [] then None
    else if users[0].email == email && users[0].password == password then Some(users[0])
    else
      var r := FindByCredentials(users[1..], email, password);
      assert r.Some? ==> exists k :: (0 <= k < |users| && users[k] == r.value &&
        forall j :: 0 <= j < k ==> !(users[j].email == email && users[j].password == password)) by {
        if r.Some? {
          var k :| 0 <= k < |users[1..]| && users[1..][k] == r.value &&
            forall j :: 0 <= j < k ==> !(users[1..][j].email == email && users[1..][j].password == password);
          assert users[k + 1] == r.value;
          forall j | 0 <= j < k + 1 ensures !(users[j].email == email && users[j].password == password) {
            if j > 0 { assert users[j] == users[1..][j - 1]; }
          }
        }
      }
      r
  }

  /** `storedUsers.find(u => u.email === email)` finds something. */
  predicate EmailTaken(users: seq<StoredUser>, email: string)
  {
    exists u :: u in users && u.email == email
  }

  /** No two accounts share an email. */
  predicate UniqueEmails(users: seq<StoredUser>)
  {
    forall i, j :: 0 <= i < j < |users| ==> users[i].email != users[j].email
  }

  /** `'user_' + Date.now()`. */
  function NewUserId(now: nat): string
  {
    "user_" + NatToString(now)
  }

  /** Sign-ups at different clock readings get different ids. */
  lemma NewUserIdInjective(a: nat, b: nat)
    ensures NewUserId(a) == NewUserId(b) ==> a == b
  {
    if NewUserId(a) == NewUserId(b) {
      assert NatToString(a) == NewUserId(a)[5..];
      assert NatToString(b) == NewUserId(b)[5..];
      NatToStringValue(a);
      NatToStringValue(b);
    }
  }

  /** The account sign-up creates. `encodedName` is the URI-encoded name. */
  function NewAccount(email: string, password: string, name: string, encodedName: string,
                      now: nat, createdAt: string): StoredUser
  {
    StoredUser(NewUserId(now), email, password, name,
               Some("https://ui-avatars.com/api/?name=" + encodedName + "&background=random"), None, createdAt)
  }

  /** Sign-up keeps emails distinct: it adds an account only for an email
      not in use. */
  lemma SignupKeepsEmailsUnique(users: seq<StoredUser>, account: StoredUser)
    requires UniqueEmails(users) && !EmailTaken(users, account.email)
    ensures UniqueEmails(users + [account])
  {
    forall i | 0 <= i < |users| ensures users[i].email != account.email {
      assert users[i] in users;
    }
  }

  /** Signing up and then logging in with the same email and password logs
      in as the user sign-up signed in. */
  lemma {:induction false} SignupThenLogin(users: seq<StoredUser>, account: StoredUser)
    requires !EmailTaken(users, account.email)
    ensures FindByCredentials(users + [account], account.email, account.password) == Some(account)
  {
    if users == [] {
      assert users + [account] == [account];
    } else {
      assert users[0] in users;
      assert (users + [account])[1..] == users[1..] + [account];
      assert !EmailTaken(users[1..], account.email) by {
        forall u | u in users[1..] ensures u.email != account.email {
          assert u in users;
        }
      }
      SignupThenLogin(users[1..], account);
    }
  }

  /** `{ ...user, ...data }`. */
  function ApplyToUser(u: User, d: ProfileChange): User
  {
    User(if d.id.Some? then d.id.value else u.id,
         if d.email.Some? then d.email.value else u.email,
         if d.name.Some? then d.name.value else u.name,
         if d.avatar.Some? then d.avatar else u.avatar,
         if d.phone.Some? then d.phone else u.phone,
         if d.createdAt.Some? then d.createdAt.value else u.createdAt)
  }

  /** `{ ...storedUsers[i], ...data }`: the password is kept. */
  function ApplyToStored(s: StoredUser, d: ProfileChange): (r: StoredUser)
    ensures r.password == s.password
  {
    StoredUser(if d.id.Some? then d.id.value else s.id,
               if d.email.Some? then d.email.value else s.email,
               s.password,
               if d.name.Some? then d.name.value else s.name,
               if d.avatar.Some? then d.avatar else s.avatar,
               if d.phone.Some? then d.phone else s.phone,
               if d.createdAt.Some? then d.createdAt.value else s.createdAt)
  }

  /** `storedUsers.findIndex(u => u.id === id)`. */
  function FindIndexById(users: seq<StoredUser>, id: string): (r: int)
    ensures -1 <= r < |users|
    ensures r == -1 <==> forall u :: u in users ==> u.id != id
    ensures r >= 0 ==> users[r].id == id && forall j :: 0 <= j < r ==> users[j].id != id
  {
    if users == [] then -1
    else if users[0].id == id then 0
    else
      var r := FindIndexById(users[1..], id);
      if r == -1 then -1 else r + 1
  }

  /** The stored accounts after an edit of the user with `id`. */
  function UpdatedUsers(users: seq<StoredUser>, id: string, d: ProfileChange): (r: seq<StoredUser>)
    ensures |r| == |users|
  {
    var i := FindIndexById(users, id);
    if i == -1 then users else users[i := ApplyToStored(users[i], d)]
  }

  /** An edit keeps the signed-in user and the stored account in step: when
      they agreed before, the account found by id shows the edited user
      afterwards, and no other account changes. */
  lemma EditKeepsAccountInStep(users: seq<StoredUser>, u: User, d: ProfileChange)
    requires FindIndexById(users, u.id) >= 0 && PublicView(users[FindIndexById(users, u.id)]) == u
    ensures var i := FindIndexById(users, u.id);
      PublicView(UpdatedUsers(users, u.id, d)[i]) == ApplyToUser(u, d) &&
      UpdatedUsers(users, u.id, d)[i].password == users[i].password &&
      forall j :: 0 <= j < |users| && j != i ==> UpdatedUsers(users, u.id, d)[j] == users[j]
  {
  }

  class Auth {
    var users: seq<StoredUser>
    var userSlot: UserSlot
    var user: Option<User>
    var isLoading: bool

    /** The first render: no user yet, loading. */
    constructor (storedUsers: seq<StoredUser>, slot: UserSlot)
      ensures users == storedUsers && userSlot == slot && user == None && isLoading
    {
      users := storedUsers;
      userSlot := slot;
      user := None;
      isLoading := true;
    }

    /** The mount effect: a user in the slot is signed in; an empty or
        unreadable slot leaves nobody signed in. */
    method Mount()
      modifies this`user, this`isLoading
      ensures user == if userSlot.Saved? then Some(userSlot.user) else old(user)
      ensures !isLoading
    {
      if userSlot.Saved? {
        user := Some(userSlot.user);
      }
      isLoading := false;
    }

    /** `login`. The one storage write, of the "user" slot, may throw
        (`userWriteOk` false): then the error is shown and rethrown, and
        nobody new is signed in. */
    method Login(email: string, password: string, userWriteOk: bool) returns (outcome: Outcome)
      modifies this`user, this`userSlot, this`isLoading
      ensures FindByCredentials(users, email, password).None? ==>
        outcome == Failed("Invalid email or password") && user == old(user) && userSlot == old(userSlot)
      ensures FindByCredentials(users, email, password).Some? && !userWriteOk ==>
        outcome == WriteFailed && user == old(user) && userSlot == old(userSlot)
      ensures FindByCredentials(users, email, password).Some? && userWriteOk ==>
        var found := FindByCredentials(users, email, password).value;
        outcome == Done && user == Some(PublicView(found)) && userSlot == Saved(PublicView(found))
      ensures !isLoading
    {
      isLoading := true;
      var found := FindByCredentials(users, email, password);
      if found.None? {
        isLoading := false;
        return Failed("Invalid email or password");
      }
      var userData := PublicView(found.value);
      if !userWriteOk {
        isLoading := false;
        return WriteFailed;
      }
      userSlot := Saved(userData);
      user := Some(userData);
      isLoading := false;
      return Done;
    }

    /** `signup`: an email in use fails; otherwise the account is appended
        to the "users" slot and its user (without a phone) is saved in the
        "user" slot and signed in. Either write may throw: a failed first
        write changes nothing, and a failed second write leaves the new
        account stored but nobody new signed in. */
    method Signup(email: string, password: string, name: string, encodedName: string,
                  now: nat, createdAt: string, usersWriteOk: bool, userWriteOk: bool)
      returns (outcome: Outcome)
      modifies this`users, this`user, this`userSlot, this`isLoading
      ensures EmailTaken(old(users), email) ==>
        outcome == Failed("User already exists with this email") &&
        users == old(users) && user == old(user) && userSlot == old(userSlot)
      ensures !EmailTaken(old(users), email) && !usersWriteOk ==>
        outcome == WriteFailed && users == old(users) && user == old(user) && userSlot == old(userSlot)
      ensures !EmailTaken(old(users), email) && usersWriteOk && !userWriteOk ==>
        var account := NewAccount(email, password, name, encodedName, now, createdAt);
        outcome == WriteFailed && users == old(users) + [account] &&
        user == old(user) && userSlot == old(userSlot)
      ensures !EmailTaken(old(users), email) && usersWriteOk && userWriteOk ==>
        var account := NewAccount(email, password, name, encodedName, now, createdAt);
        outcome == Done && users == old(users) + [account] &&
        user == Some(PublicView(account)) && userSlot == Saved(PublicView(account))
      ensures !isLoading
    {
      isLoading := true;
      if exists u :: u in users && u.email == email {
        isLoading := false;
        return Failed("User already exists with this email");
      }
      var account := NewAccount(email, password, name, encodedName, now, createdAt);
      if !usersWriteOk {
        isLoading := false;
        return WriteFailed;
      }
      users := users + [account];
      var userData := User(account.id, account.email, account.name, account.avatar, None, account.createdAt);
      if !userWriteOk {
        isLoading := false;
        return WriteFailed;
      }
      userSlot := Saved(userData);
      user := Some(userData);
      isLoading := false;
      return Done;
    }

    /** `logout`. */
    method Logout()
      modifies this`user, this`userSlot
      ensures user == None && userSlot == NoUser
      ensures !IsAuthenticated()
    {
      userSlot := NoUser;
      user := None;
    }

    /** `updateProfile`: with nobody signed in it fails; otherwise the
        "user" slot takes the edit, then the stored account with the user's
        id, when there is one, and then the user in memory. Either write may
        throw: a failed "user" write changes nothing, and a failed "users"
        write leaves the slot edited but the stored account and the user in
        memory as they were. */
    method UpdateProfile(d: ProfileChange, userWriteOk: bool, usersWriteOk: bool) returns (outcome: Outcome)
      modifies this`users, this`user, this`userSlot, this`isLoading
      ensures old(user).None? ==>
        outcome == Failed("No user logged in") &&
        users == old(users) && user == old(user) && userSlot == old(userSlot)
      ensures old(user).Some? && !userWriteOk ==>
        outcome == WriteFailed && users == old(users) && user == old(user) && userSlot == old(userSlot)
      ensures old(user).Some? && userWriteOk && FindIndexById(old(users), old(user).value.id) != -1 && !usersWriteOk ==>
        outcome == WriteFailed && users == old(users) && user == old(user) &&
        userSlot == Saved(ApplyToUser(old(user).value, d))
      ensures old(user).Some? && userWriteOk && (FindIndexById(old(users), old(user).value.id) == -1 || usersWriteOk) ==>
        outcome == Done && user == Some(ApplyToUser(old(user).value, d)) &&
        userSlot == Saved(ApplyToUser(old(user).value, d)) &&
        users == UpdatedUsers(old(users), old(user).value.id, d)
      ensures !isLoading
    {
      isLoading := true;
      if user.None? {
        isLoading := false;
        return Failed("No user logged in");
      }
      if !userWriteOk {
        isLoading := false;
        return WriteFailed;
      }
      var updated := ApplyToUser(user.value, d);
      userSlot := Saved(updated);
      var i := FindIndexById(users, user.value.id);
      if i != -1 {
        if !usersWriteOk {
          isLoading := false;
          return WriteFailed;
        }
        users := users[i := ApplyToStored(users[i], d)];
      }
      user := Some(updated);
      isLoading := false;
      return Done;
    }

    /** `isAuthenticated: !!user`. */
    predicate IsAuthenticated()
      reads this
    {
      user.Some?
    }
  }
}
