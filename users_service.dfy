/** The user table and the account operations on it: local sign-up, Google
    sign-up or linking, password sign-in, look-ups, updates, deletion and the
    password change.

    The table is a sequence of rows with unique ids (the primary key) and
    unique emails (a unique column). bcrypt is split in two: `compare` is a
    fixed function of the service, and each call that hashes receives the
    digest bcrypt produced as an argument, related to its password by
    `Hashes`; two hashes of one password may therefore differ, as salted
    digests do. A fresh uuid is likewise an argument, required to be unused. */
module UsersService {
  import opened Common

  /** The avatar column's default, also what local sign-up writes to `googleId`. */
  const DEFAULT_AVATAR: string := "/assets/img/avatar.png"

  /** A row of the User table. */
  datatype User = User(
    id: string, name: string, email: string, password: Option<string>,
    isGoogleAccount: bool, googleId: Option<string>, avatarUrl: string, bio: Option<string>)

  /** The columns an update body sets; an absent field leaves its column alone. */
  datatype UserPatch = UserPatch(
    name: Option<string>, email: Option<string>, password: Option<string>,
    isGoogleAccount: Option<bool>, googleId: Option<string>, avatarUrl: Option<string>,
    bio: Option<string>)

  /** An update body that sets only the avatar. */
  function AvatarPatch(url: string): UserPatch {
    UserPatch(None, None, None, None, None, Some(url), None)
  }

  /** `hashed` is a bcrypt digest of `password`: non-empty, and `compare` accepts the pair. */
  predicate Hashes(compare: (string, string) -> bool, password: string, hashed: string) {
    hashed != "" && compare(password, hashed)
  }

  /** The table's key constraints: the primary key and the unique email column. */
  ghost predicate UniqueKeys(rows: seq<User>) {
    forall i, j | 0 <= i < j < |rows| :: rows[i].id != rows[j].id && rows[i].email != rows[j].email
  }

  // -------------------------------------------------------------- look-ups

  function IndexOfId(rows: seq<User>, id: string): (r: Option<nat>)
    ensures r.Some? ==> r.value < |rows| && rows[r.value].id == id
    ensures r.Some? ==> forall j | 0 <= j < r.value :: rows[j].id != id
    ensures r.None? <==> forall k | 0 <= k < |rows| :: rows[k].id != id
  {
    FirstIndex(rows, (u: User) => u.id == id)
  }

  function IndexOfEmail(rows: seq<User>, email: string): (r: Option<nat>)
    ensures r.Some? ==> r.value < |rows| && rows[r.value].email == email
    ensures r.Some? ==> forall j | 0 <= j < r.value :: rows[j].email != email
    ensures r.None? <==> forall k | 0 <= k < |rows| :: rows[k].email != email
  {
    FirstIndex(rows, (u: User) => u.email == email)
  }

  /** Under the key constraints, a row is the one its id and its email find. */
  lemma {:induction false} IndexOfKeys(rows: seq<User>, k: nat)
    requires UniqueKeys(rows) && k < |rows|
    ensures IndexOfId(rows, rows[k].id) == Some(k)
    ensures IndexOfEmail(rows, rows[k].email) == Some(k)
  {
    assert IndexOfId(rows, rows[k].id).Some?;
    assert IndexOfEmail(rows, rows[k].email).Some?;
  }

  /** `findOneById`: the row, or NotFound. */
  function FindOneById(rows: seq<User>, id: string): (r: Raised<User>)
    ensures r.Returned? <==> exists k | 0 <= k < |rows| :: rows[k].id == id
    ensures r.Returned? ==> r.value.id == id && r.value in rows
    ensures r.Threw? ==> r.error == HttpException(NotFound)
  {
    match IndexOfId(rows, id)
    case Some(k) => Returned(rows[k])
    case None => Threw(HttpException(NotFound))
  }

  /** `findOneByEmail`: the row, or null. */
  function FindOneByEmail(rows: seq<User>, email: string): (r: Option<User>)
    ensures r.Some? <==> exists k | 0 <= k < |rows| :: rows[k].email == email
    ensures r.Some? ==> r.value.email == email && r.value in rows
  {
    match IndexOfEmail(rows, email)
    case Some(k) => Some(rows[k])
    case None => None
  }

  /** `checkEmailExists`. */
  function EmailExists(rows: seq<User>, email: string): (b: bool)
    ensures b <==> exists k | 0 <= k < |rows| :: rows[k].email == email
  {
    IndexOfEmail(rows, email).Some?
  }

  /** `checkUsernameExists`. */
  function UsernameExists(rows: seq<User>, name: string): (b: bool)
    ensures b <==> exists k | 0 <= k < |rows| :: rows[k].name == name
  {
    FirstIndex(rows, (u: User) => u.name == name).Some?
  }

  /** `checkEmailLinkedToGoogle`: some row has the email and is a Google account. */
  function EmailLinkedToGoogle(rows: seq<User>, email: string): (b: bool)
    ensures b <==> exists k | 0 <= k < |rows| :: rows[k].email == email && rows[k].isGoogleAccount
  {
    FirstIndex(rows, (u: User) => u.email == email && u.isGoogleAccount).Some?
  }

  // --------------------------------------------------------------- sign-in

  /** `validateUser`: NotFound for an unknown email; Unauthorized for a Google
      account, for a row without a password and for a wrong password, in that
      order; otherwise the row. It never answers null. */
  function Validate(rows: seq<User>, email: string, password: string, compare: (string, string) -> bool)
    : (r: Raised<User>)
    ensures r == Threw(HttpException(NotFound)) <==> !EmailExists(rows, email)
    ensures r.Threw? ==> r.error == HttpException(NotFound) || r.error == HttpException(Unauthorized)
    ensures r.Returned? ==>
              && r.value in rows && r.value.email == email
              && !r.value.isGoogleAccount && Truthy(r.value.password)
              && compare(password, r.value.password.value)
    ensures EmailLinkedToGoogle(rows, email) && UniqueKeys(rows) ==> r == Threw(HttpException(Unauthorized))
  {
    match IndexOfEmail(rows, email)
    case None => Threw(HttpException(NotFound))
    case Some(k) =>
      var u := rows[k];
      if u.isGoogleAccount then Threw(HttpException(Unauthorized))
      else if !Truthy(u.password) then Threw(HttpException(Unauthorized))
      else if !compare(password, u.password.value) then Threw(HttpException(Unauthorized))
      else Returned(u)
  }

  /** The converse: a local account whose stored digest accepts the password
      signs in, as that very row. */
  lemma {:induction false} ValidateAcceptsStoredCredentials(rows: seq<User>, k: nat, password: string,
                                                            compare: (string, string) -> bool)
    requires UniqueKeys(rows) && k < |rows|
    requires !rows[k].isGoogleAccount && Truthy(rows[k].password) && compare(password, rows[k].password.value)
    ensures Validate(rows, rows[k].email, password, compare) == Returned(rows[k])
  {
    IndexOfKeys(rows, k);
  }

  // ---------------------------------------------------------------- sign-up

  /** The row local sign-up creates. `googleId` receives the default avatar
      path, as the code writes it. */
  function NewLocalUser(id: string, name: string, email: string, hashed: string): User {
    User(id, name, email, Some(hashed), false, Some(DEFAULT_AVATAR), DEFAULT_AVATAR, None)
  }

  /** The row Google sign-up creates: empty password, `picture ?? default` as avatar. */
  function NewGoogleUser(id: string, name: string, email: string, googleId: Option<string>,
                         picture: Option<string>): User {
    User(id, name, email, Some(""), true, googleId,
         if picture.Some? then picture.value else DEFAULT_AVATAR, None)
  }

  /** The table after `createGoogleUser`: a new row for an unknown email,
      otherwise only that row's `googleId` replaced. */
  function GoogleUpserted(rows: seq<User>, id: string, name: string, email: string,
                          googleId: Option<string>, picture: Option<string>): seq<User> {
    match IndexOfEmail(rows, email)
    case None => rows + [NewGoogleUser(id, name, email, googleId, picture)]
    case Some(k) => rows[k := rows[k].(googleId := googleId)]
  }

  /** A user who signs up locally can sign in with that password straight away. */
  lemma {:induction false} CreateThenValidate(rows: seq<User>, id: string, name: string, email: string,
                                              password: string, hashed: string, compare: (string, string) -> bool)
    requires UniqueKeys(rows) && !EmailExists(rows, email) && IndexOfId(rows, id).None?
    requires Hashes(compare, password, hashed)
    ensures UniqueKeys(rows + [NewLocalUser(id, name, email, hashed)])
    ensures Validate(rows + [NewLocalUser(id, name, email, hashed)], email, password, compare)
            == Returned(NewLocalUser(id, name, email, hashed))
  {
    var after := rows + [NewLocalUser(id, name, email, hashed)];
    assert after[|rows|] == NewLocalUser(id, name, email, hashed);
    ValidateAcceptsStoredCredentials(after, |rows|, password, compare);
  }

  /** A Google-created account can never sign in with a password. */
  lemma {:induction false} GoogleUserCannotValidate(rows: seq<User>, id: string, name: string, email: string,
                                                    googleId: Option<string>, picture: Option<string>,
                                                    password: string, compare: (string, string) -> bool)
    requires UniqueKeys(rows) && !EmailExists(rows, email) && IndexOfId(rows, id).None?
    ensures UniqueKeys(GoogleUpserted(rows, id, name, email, googleId, picture))
    ensures Validate(GoogleUpserted(rows, id, name, email, googleId, picture), email, password, compare)
            == Threw(HttpException(Unauthorized))
  {
    var after := GoogleUpserted(rows, id, name, email, googleId, picture);
    assert after[|rows|].email == email && after[|rows|].isGoogleAccount;
  }

  /** Google sign-up is idempotent: repeating it with the same profile (and any
      fresh id) leaves the table as the first call left it. */
  lemma {:induction false} GoogleUpsertIdempotent(rows: seq<User>, id1: string, id2: string, name: string,
                                                  email: string, googleId: Option<string>, picture: Option<string>)
    requires UniqueKeys(rows) && IndexOfId(rows, id1).None?
    ensures GoogleUpserted(GoogleUpserted(rows, id1, name, email, googleId, picture), id2, name, email, googleId, picture)
            == GoogleUpserted(rows, id1, name, email, googleId, picture)
  {
    var once := GoogleUpserted(rows, id1, name, email, googleId, picture);
    match IndexOfEmail(rows, email)
    case None =>
      assert once[|rows|].email == email;
      assert IndexOfEmail(once, email) == Some(|rows|);
    case Some(k) =>
      assert once[k].email == email;
      assert forall j | 0 <= j < k :: once[j] == rows[j];
      assert IndexOfEmail(once, email) == Some(k);
  }

  // --------------------------------------------------------------- updates

  /** The row after `update(id, patch)`: each field the patch sets is replaced. */
  function Apply(u: User, p: UserPatch): (v: User)
    ensures v.id == u.id
  {
    User(u.id,
         if p.name.Some? then p.name.value else u.name,
         if p.email.Some? then p.email.value else u.email,
         if p.password.Some? then p.password else u.password,
         if p.isGoogleAccount.Some? then p.isGoogleAccount.value else u.isGoogleAccount,
         if p.googleId.Some? then p.googleId else u.googleId,
         if p.avatarUrl.Some? then p.avatarUrl.value else u.avatarUrl,
         if p.bio.Some? then p.bio else u.bio)
  }

  /** Repeating an update changes nothing more: PUT and PATCH bodies are idempotent. */
  lemma ApplyIdempotent(u: User, p: UserPatch)
    ensures Apply(Apply(u, p), p) == Apply(u, p)
  {
  }

  /** An avatar patch changes the avatar and nothing else. */
  lemma AvatarPatchOnlyAvatar(u: User, url: string)
    ensures Apply(u, AvatarPatch(url)) == u.(avatarUrl := url)
  {
  }

  /** The email a patch would give the row with `id` belongs to another row. */
  function EmailTakenByOther(rows: seq<User>, id: string, p: UserPatch): (b: bool)
    ensures b <==> p.email.Some? && exists k | 0 <= k < |rows| :: rows[k].email == p.email.value && rows[k].id != id
  {
    p.email.Some? && FirstIndex(rows, (u: User) => u.email == p.email.value && u.id != id).Some?
  }

  /** An accepted update keeps the key constraints, and the row read back
      afterwards is the patched row. */
  lemma {:induction false} UpdateReadsBack(rows: seq<User>, k: nat, p: UserPatch)
    requires UniqueKeys(rows) && k < |rows| && !EmailTakenByOther(rows, rows[k].id, p)
    ensures UniqueKeys(rows[k := Apply(rows[k], p)])
    ensures FindOneById(rows[k := Apply(rows[k], p)], rows[k].id) == Returned(Apply(rows[k], p))
  {
    var after := rows[k := Apply(rows[k], p)];
    forall i, j | 0 <= i < j < |after| ensures after[i].id != after[j].id && after[i].email != after[j].email {
      if i == k {
        assert after[j] == rows[j];
      } else if j == k {
        assert after[i] == rows[i];
      }
    }
    IndexOfKeys(after, k);
  }

  /** After a delete, the id is gone, the key constraints still hold and every
      other row is still found by its id. */
  lemma {:induction false} RemoveThenNotFound(rows: seq<User>, k: nat)
    requires UniqueKeys(rows) && k < |rows|
    ensures UniqueKeys(rows[..k] + rows[k + 1..])
    ensures FindOneById(rows[..k] + rows[k + 1..], rows[k].id) == Threw(HttpException(NotFound))
    ensures forall j | 0 <= j < |rows| && j != k :: FindOneById(rows[..k] + rows[k + 1..], rows[j].id) == Returned(rows[j])
  {
    var after := rows[..k] + rows[k + 1..];
    assert forall i | 0 <= i < |after| :: after[i] == if i < k then rows[i] else rows[i + 1];
    forall j | 0 <= j < |rows| && j != k
      ensures FindOneById(after, rows[j].id) == Returned(rows[j])
    {
      if j < k {
        assert after[j] == rows[..k][j] == rows[j];
        IndexOfKeys(after, j);
      } else {
        assert after[j - 1] == rows[k + 1..][j - 1 - k] == rows[j];
        IndexOfKeys(after, j - 1);
      }
    }
  }

  // -------------------------------------------------------- password change

  /** The ordered checks of `changePassword`: the error it throws, or None
      when the change goes ahead. */
  function ChangePasswordError(rows: seq<User>, id: string, current: string, newPassword: string,
                               compare: (string, string) -> bool): (r: Option<ServiceError>)
    ensures r == Some(HttpException(NotFound)) <==> IndexOfId(rows, id).None?
    ensures r.Some? ==> r.value in {HttpException(NotFound), HttpException(BadRequest), HttpException(Unauthorized)}
    ensures r.None? <==>
              && IndexOfId(rows, id).Some?
              && var u := rows[IndexOfId(rows, id).value];
                 !u.isGoogleAccount && Truthy(u.password) && compare(current, u.password.value) && current != newPassword
    ensures IndexOfId(rows, id).Some? && rows[IndexOfId(rows, id).value].isGoogleAccount ==>
              r == Some(HttpException(BadRequest))
    ensures IndexOfId(rows, id).Some? && !Truthy(rows[IndexOfId(rows, id).value].password) ==>
              r == Some(HttpException(BadRequest))
    ensures current == newPassword && r != Some(HttpException(NotFound)) && r != Some(HttpException(Unauthorized)) ==>
              r == Some(HttpException(BadRequest))
    ensures r == Some(HttpException(Unauthorized)) <==>
              && IndexOfId(rows, id).Some?
              && var u := rows[IndexOfId(rows, id).value];
                 !u.isGoogleAccount && Truthy(u.password) && !compare(current, u.password.value)
  {
    match IndexOfId(rows, id)
    case None => Some(HttpException(NotFound))
    case Some(k) =>
      var u := rows[k];
      if u.isGoogleAccount then Some(HttpException(BadRequest))
      else if !Truthy(u.password) then Some(HttpException(BadRequest))
      else if !compare(current, u.password.value) then Some(HttpException(Unauthorized))
      else if current == newPassword then Some(HttpException(BadRequest))
      else None
  }

  /** After a password change the user signs in with the new password, and no
      longer with the old one unless the new digest also accepts it. */
  lemma {:induction false} ChangePasswordThenValidate(rows: seq<User>, id: string, current: string, newPassword: string,
                                                      hashed: string, compare: (string, string) -> bool)
    requires UniqueKeys(rows) && ChangePasswordError(rows, id, current, newPassword, compare).None?
    requires Hashes(compare, newPassword, hashed)
    ensures var k := IndexOfId(rows, id).value;
      var after := rows[k := rows[k].(password := Some(hashed))];
      && UniqueKeys(after)
      && Validate(after, rows[k].email, newPassword, compare) == Returned(after[k])
      && (!compare(current, hashed) ==> Validate(after, rows[k].email, current, compare) == Threw(HttpException(Unauthorized)))
  {
    var k := IndexOfId(rows, id).value;
    var after := rows[k := rows[k].(password := Some(hashed))];
    assert forall i | 0 <= i < |after| && i != k :: after[i] == rows[i];
    ValidateAcceptsStoredCredentials(after, k, newPassword, compare);
    IndexOfKeys(after, k);
  }

  // --------------------------------------------------------------- service

  class Service {
    /** The User table. */
    var rows: seq<User>
    /** `bcrypt.compare`. */
    const compare: (string, string) -> bool

    ghost predicate Valid()
      reads this
    {
      UniqueKeys(rows)
    }

    constructor (compare: (string, string) -> bool)
      ensures Valid() && rows == [] && this.compare == compare
    {
      rows := [];
      this.compare := compare;
    }

    /** POST users: Conflict for a known email, otherwise one new local row. */
    method CreateUser(id: string, name: string, email: string, password: string, hashed: string)
      returns (r: Raised<User>)
      requires Valid() && IndexOfId(rows, id).None? && Hashes(compare, password, hashed)
      modifies this
      ensures Valid()
      ensures EmailExists(old(rows), email) ==> r == Threw(HttpException(Conflict)) && rows == old(rows)
      ensures !EmailExists(old(rows), email) ==>
                && r == Returned(NewLocalUser(id, name, email, hashed))
                && rows == old(rows) + [r.value]
                && Validate(rows, email, password, compare) == r
    {
      if EmailExists(rows, email) {
        r := Threw(HttpException(Conflict));
        return;
      }
      var user := NewLocalUser(id, name, email, hashed);
      CreateThenValidate(rows, id, name, email, password, hashed, compare);
      rows := rows + [user];
      r := Returned(user);
    }

    /** POST users/google: creates a Google row for an unknown email; for a
        known email replaces only that row's `googleId`. */
    method CreateGoogleUser(id: string, name: string, email: string, googleId: Option<string>, picture: Option<string>)
      returns (user: User)
      requires Valid() && IndexOfId(rows, id).None?
      modifies this
      ensures Valid()
      ensures rows == GoogleUpserted(old(rows), id, name, email, googleId, picture)
      ensures !EmailExists(old(rows), email) ==> user == NewGoogleUser(id, name, email, googleId, picture)
      ensures EmailExists(old(rows), email) ==>
                user == FindOneByEmail(old(rows), email).value.(googleId := googleId)
      ensures FindOneByEmail(rows, email) == Some(user)
    {
      var found := IndexOfEmail(rows, email);
      var avatar := if picture.Some? then picture.value else DEFAULT_AVATAR;
      if found.None? {
        user := User(id, name, email, Some(""), true, googleId, avatar, None);
        GoogleUserCannotValidate(rows, id, name, email, googleId, picture, "", compare);
        rows := rows + [user];
        assert rows[|rows| - 1] == user;
        IndexOfKeys(rows, |rows| - 1);
      } else {
        var k := found.value;
        user := rows[k].(googleId := googleId);
        rows := rows[k := user];
        forall i, j | 0 <= i < j < |rows| ensures rows[i].id != rows[j].id && rows[i].email != rows[j].email {
          assert rows[i].id == old(rows)[i].id && rows[i].email == old(rows)[i].email;
          assert rows[j].id == old(rows)[j].id && rows[j].email == old(rows)[j].email;
        }
        IndexOfKeys(rows, k);
      }
    }

    /** PUT and PATCH users/:id: NotFound for an unknown id; a storage error
        when the new email belongs to another row; otherwise the patched row,
        read back by id. */
    method UpdateUser(id: string, patch: UserPatch) returns (r: Raised<User>)
      requires Valid()
      modifies this
      ensures Valid()
      ensures IndexOfId(old(rows), id).None? ==> r == Threw(HttpException(NotFound)) && rows == old(rows)
      ensures IndexOfId(old(rows), id).Some? && EmailTakenByOther(old(rows), id, patch) ==>
                r.Threw? && r.error.PlainError? && rows == old(rows)
      ensures IndexOfId(old(rows), id).Some? && !EmailTakenByOther(old(rows), id, patch) ==>
                var k := IndexOfId(old(rows), id).value;
                && rows == old(rows)[k := Apply(old(rows)[k], patch)]
                && r == Returned(Apply(old(rows)[k], patch))
    {
      var found := IndexOfId(rows, id);
      if found.None? {
        r := Threw(HttpException(NotFound));
        return;
      }
      if EmailTakenByOther(rows, id, patch) {
        r := Threw(PlainError("Duplicate entry for key 'email'"));
        return;
      }
      var k := found.value;
      UpdateReadsBack(rows, k, patch);
      rows := rows[k := Apply(rows[k], patch)];
      r := FindOneById(rows, id);
    }

    /** DELETE users/:id: NotFound for an unknown id, otherwise the row is gone. */
    method RemoveUser(id: string) returns (r: Raised<()>)
      requires Valid()
      modifies this
      ensures Valid()
      ensures IndexOfId(old(rows), id).None? ==> r == Threw(HttpException(NotFound)) && rows == old(rows)
      ensures IndexOfId(old(rows), id).Some? ==>
                var k := IndexOfId(old(rows), id).value;
                r == Returned(()) && rows == old(rows)[..k] + old(rows)[k + 1..]
      ensures FindOneById(rows, id).Threw?
    {
      var found := IndexOfId(rows, id);
      if found.None? {
        r := Threw(HttpException(NotFound));
        return;
      }
      var k := found.value;
      RemoveThenNotFound(rows, k);
      rows := rows[..k] + rows[k + 1..];
      r := Returned(());
    }

    /** POST users/:id/change-password, service side: the ordered checks, then
        only that row's password replaced by the new digest. */
    method ChangePassword(id: string, current: string, newPassword: string, hashed: string) returns (r: Raised<()>)
      requires Valid() && Hashes(compare, newPassword, hashed)
      modifies this
      ensures Valid()
      ensures ChangePasswordError(old(rows), id, current, newPassword, compare).Some? ==>
                r == Threw(ChangePasswordError(old(rows), id, current, newPassword, compare).value) && rows == old(rows)
      ensures ChangePasswordError(old(rows), id, current, newPassword, compare).None? ==>
                var k := IndexOfId(old(rows), id).value;
                && r == Returned(())
                && rows == old(rows)[k := old(rows)[k].(password := Some(hashed))]
                && Validate(rows, rows[k].email, newPassword, compare) == Returned(rows[k])
    {
      var found := IndexOfId(rows, id);
      if found.None? {
        r := Threw(HttpException(NotFound));
        return;
      }
      var user := rows[found.value];
      if user.isGoogleAccount {
        r := Threw(HttpException(BadRequest));
        return;
      }
      if !Truthy(user.password) {
        r := Threw(HttpException(BadRequest));
        return;
      }
      if !compare(current, user.password.value) {
        r := Threw(HttpException(Unauthorized));
        return;
      }
      if current == newPassword {
        r := Threw(HttpException(BadRequest));
        return;
      }
      ChangePasswordThenValidate(rows, id, current, newPassword, hashed, compare);
      rows := rows[found.value := user.(password := Some(hashed))];
      r := Returned(());
    }
  }
}
