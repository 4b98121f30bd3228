/** The users request layer: the sign-in endpoint's null check, the
    change-password body checks made before the service is called, and the
    avatar upload: the file filter, the stored file name, and the public URL
    written to the user's row and returned. */
module UsersController {
  import opened Common
  import opened UsersService

  const DEFAULT_BACKEND_URL: string := "http://localhost:3000"
  const AVATAR_PATH: string := "/public/avatars/"
  const IMAGE_EXTENSIONS: seq<string> := [".jpg", ".jpeg", ".png", ".gif"]
  const PASSWORD_MIN_LENGTH: nat := 6
  const PASSWORD_CHANGED: string := "Password changed successfully."

  // ---------------------------------------------------------------- sign-in

  /** POST users/validate, given what the service call did: a null user is
      401, a thrown error keeps its status. */
  function ValidateEndpoint(outcome: Raised<Option<User>>): (r: Reply<User>)
    ensures outcome == Returned(None) ==> r == Fail(Unauthorized)
    ensures outcome.Returned? && outcome.value.Some? ==> r == Respond(outcome.value.value)
    ensures outcome.Threw? ==> r == Fail(StatusOf(outcome.error))
  {
    match outcome
    case Returned(Some(u)) => Respond(u)
    case Returned(None) => Fail(Unauthorized)
    case Threw(e) => Fail(StatusOf(e))
  }

  /** The service's answer as its declared type `User | null`. */
  function Nullable(v: Raised<User>): Raised<Option<User>> {
    match v
    case Returned(u) => Returned(Some(u))
    case Threw(e) => Threw(e)
  }

  /** Against the service model: the endpoint answers the row for good
      credentials and 404 exactly for an unknown email; its null branch is
      never reached, every 401 comes from the service. */
  lemma {:induction false} SignInAnswers(rows: seq<User>, email: string, password: string, compare: (string, string) -> bool)
    ensures var r := ValidateEndpoint(Nullable(Validate(rows, email, password, compare)));
      && (r == Fail(NotFound) <==> !EmailExists(rows, email))
      && (r.Fail? ==> r.status == NotFound || r.status == Unauthorized)
      && (r.Respond? ==> Validate(rows, email, password, compare) == Returned(r.body))
      && (r.Fail? ==> Validate(rows, email, password, compare).Threw?)
  {
    var v := Validate(rows, email, password, compare);
    if v.Threw? {
      assert v.error == HttpException(NotFound) || v.error == HttpException(Unauthorized);
    }
  }

  // -------------------------------------------------------- password change

  /** A JSON body field: absent, a string, or some other JSON value. */
  datatype BodyField = Missing | Text(s: string) | NonString

  /** Present, a string, and truthy (non-empty). */
  predicate SuppliedString(f: BodyField) {
    f.Text? && f.s != ""
  }

  /** The body checks of POST users/:id/change-password, in order: the
      message of the BadRequest thrown, or None when the body is accepted. */
  function PasswordBodyError(current: BodyField, newPassword: BodyField): (r: Option<string>)
    ensures r.None? <==> SuppliedString(current) && SuppliedString(newPassword) && |newPassword.s| >= PASSWORD_MIN_LENGTH
    ensures !SuppliedString(current) ==> r == Some("Current password is required and must be a string.")
    ensures SuppliedString(current) && !SuppliedString(newPassword) ==>
              r == Some("New password is required and must be a string.")
  {
    if !SuppliedString(current) then Some("Current password is required and must be a string.")
    else if !SuppliedString(newPassword) then Some("New password is required and must be a string.")
    else if |newPassword.s| < PASSWORD_MIN_LENGTH then Some("New password must be at least 6 characters long.")
    else None
  }

  /** A five-character new password is refused with the length message, and a
      six-character one passes. */
  lemma ShortPasswordRefused(current: string)
    requires current != ""
    ensures PasswordBodyError(Text(current), Text("abcde")) == Some("New password must be at least 6 characters long.")
    ensures PasswordBodyError(Text(current), Text("abcdef")).None?
  {
  }

  // -------------------------------------------------------------- avatar

  /** The multer file filter: the original name must end in one of the image
      extensions, letters compared without regard to case. */
  function ImageFileAccepted(originalName: string): (b: bool)
    ensures b <==> exists e | e in IMAGE_EXTENSIONS :: EndsWith(Lower(originalName), e)
  {
    var l := Lower(originalName);
    assert forall e | e in IMAGE_EXTENSIONS :: e == ".jpg" || e == ".jpeg" || e == ".png" || e == ".gif";
    assert IMAGE_EXTENSIONS[0] == ".jpg" && IMAGE_EXTENSIONS[1] == ".jpeg";
    assert IMAGE_EXTENSIONS[2] == ".png" && IMAGE_EXTENSIONS[3] == ".gif";
    assert ".jpg" in IMAGE_EXTENSIONS && ".jpeg" in IMAGE_EXTENSIONS;
    assert ".png" in IMAGE_EXTENSIONS && ".gif" in IMAGE_EXTENSIONS;
    EndsWith(l, ".jpg") || EndsWith(l, ".jpeg") || EndsWith(l, ".png") || EndsWith(l, ".gif")
  }

  /** The filter does not depend on the case of the name. */
  lemma ImageFilterIgnoresCase(originalName: string)
    ensures ImageFileAccepted(Upper(originalName)) == ImageFileAccepted(originalName)
  {
    LowerOfUpper(originalName);
  }

  /** `photo.JPG` passes the filter. */
  lemma UpperCaseExtensionAccepted()
    ensures ImageFileAccepted("photo.JPG")
  {
    assert Lower("photo.JPG") == "photo.jpg";
  }

  /** The extension must end the name: an image name with a further suffix is refused. */
  lemma TrailingSuffixRefused()
    ensures !ImageFileAccepted("a.jpg.exe")
  {
    assert Lower("a.jpg.exe") == "a.jpg.exe";
  }

  /** `Date.now() + '-' + Math.round(Math.random() * 1E9)`. */
  function UniqueSuffix(nowMs: nat, random: nat): string {
    NatToString(nowMs) + "-" + NatToString(random)
  }

  /** The suffix determines the instant and the random draw: the '-' can only
      sit where the first number ends, because digits are not '-'. */
  lemma {:induction false} UniqueSuffixInjective(n1: nat, r1: nat, n2: nat, r2: nat)
    requires UniqueSuffix(n1, r1) == UniqueSuffix(n2, r2)
    ensures n1 == n2 && r1 == r2
  {
    var a1, b1 := NatToString(n1), NatToString(r1);
    var a2, b2 := NatToString(n2), NatToString(r2);
    var u := UniqueSuffix(n1, r1);
    assert u == a1 + "-" + b1 == a2 + "-" + b2;
    assert u[|a1|] == '-' && u[|a2|] == '-';
    assert |a1| == |a2|;
    assert a1 == u[..|a1|] == a2;
    assert b1 == u[|a1| + 1..] == b2;
    NatToStringInjective(n1, n2);
    NatToStringInjective(r1, r2);
  }

  /** Two uploads for one user with one extension get distinct file names
      unless they happen at the same millisecond with the same random draw. */
  lemma AvatarNamesFromDistinctDraws(userId: string, n1: nat, r1: nat, n2: nat, r2: nat, extension: string)
    requires userId != "" && (n1 != n2 || r1 != r2)
    ensures AvatarFilename(Some(userId), UniqueSuffix(n1, r1), extension)
            != AvatarFilename(Some(userId), UniqueSuffix(n2, r2), extension)
  {
    if UniqueSuffix(n1, r1) == UniqueSuffix(n2, r2) {
      UniqueSuffixInjective(n1, r1, n2, r2);
    }
    AvatarFilenamesDistinct(userId, UniqueSuffix(n1, r1), UniqueSuffix(n2, r2), extension);
  }

  /** The disk-storage file name: `<userId>-<suffix><extension>`, or an error
      when the route carries no user id. `extension` is `path.extname` of the
      original name. */
  function AvatarFilename(userId: Option<string>, suffix: string, extension: string): (r: Raised<string>)
    ensures r.Threw? <==> !Truthy(userId)
    ensures r.Threw? ==> StatusOf(r.error) == InternalServerError
    ensures r.Returned? ==> HasPrefix(r.value, userId.value + "-") && EndsWith(r.value, suffix + extension)
    ensures r.Returned? ==> |r.value| == |userId.value| + 1 + |suffix| + |extension|
  {
    if !Truthy(userId) then Threw(PlainError("User ID missing from request parameters"))
    else
      var name := userId.value + "-" + suffix + extension;
      assert name[..|userId.value + "-"|] == userId.value + "-";
      assert name[|name| - |suffix + extension|..] == suffix + extension;
      Returned(name)
  }

  /** Two uploads for one user with one extension get distinct names when
      their suffixes differ. */
  lemma {:induction false} AvatarFilenamesDistinct(userId: string, s1: string, s2: string, extension: string)
    requires userId != "" && s1 != s2
    ensures AvatarFilename(Some(userId), s1, extension) != AvatarFilename(Some(userId), s2, extension)
  {
    var p := userId + "-";
    var n1 := p + s1 + extension;
    var n2 := p + s2 + extension;
    if |s1| == |s2| {
      assert n1[|p|..|p| + |s1|] == s1;
      assert n2[|p|..|p| + |s2|] == s2;
    }
  }

  /** `${BACKEND_URL}/public/avatars/${filename}`, BACKEND_URL defaulting to the local server. */
  function AvatarUrl(backendUrl: Option<string>, filename: string): (u: string)
    ensures HasPrefix(u, if backendUrl.Some? then backendUrl.value else DEFAULT_BACKEND_URL)
    ensures EndsWith(u, AVATAR_PATH + filename)
    ensures |u| == |if backendUrl.Some? then backendUrl.value else DEFAULT_BACKEND_URL| + |AVATAR_PATH| + |filename|
  {
    var base := if backendUrl.Some? then backendUrl.value else DEFAULT_BACKEND_URL;
    var u := base + AVATAR_PATH + filename;
    assert u[..|base|] == base;
    assert u[|u| - |AVATAR_PATH + filename|..] == AVATAR_PATH + filename;
    u
  }

  /** The URL determines the stored file: one base never maps two file names to one URL. */
  lemma {:induction false} AvatarUrlInjective(backendUrl: Option<string>, f1: string, f2: string)
    requires AvatarUrl(backendUrl, f1) == AvatarUrl(backendUrl, f2)
    ensures f1 == f2
  {
    var u := AvatarUrl(backendUrl, f1);
    assert |f1| == |f2|;
    assert u[|u| - |AVATAR_PATH + f1|..] == AVATAR_PATH + f1;
    assert u[|u| - |AVATAR_PATH + f2|..] == AVATAR_PATH + f2;
    assert f1 == (AVATAR_PATH + f1)[|AVATAR_PATH|..];
    assert f2 == (AVATAR_PATH + f2)[|AVATAR_PATH|..];
  }

  // ----------------------------------------------------------------- service

  /** POST users/:id/change-password: the body checks, then the service. */
  method ChangeUserPassword(svc: Service, id: string, current: BodyField, newPassword: BodyField, hashed: string)
    returns (r: Reply<string>)
    requires svc.Valid()
    requires newPassword.Text? ==> Hashes(svc.compare, newPassword.s, hashed)
    modifies svc
    ensures svc.Valid()
    ensures PasswordBodyError(current, newPassword).Some? ==> r == Fail(BadRequest) && svc.rows == old(svc.rows)
    ensures PasswordBodyError(current, newPassword).None? ==>
              var e := ChangePasswordError(old(svc.rows), id, current.s, newPassword.s, svc.compare);
              && (e.Some? ==> r == Fail(StatusOf(e.value)) && svc.rows == old(svc.rows))
              && (e.None? ==>
                    var k := IndexOfId(old(svc.rows), id).value;
                    && r == Respond(PASSWORD_CHANGED)
                    && svc.rows == old(svc.rows)[k := old(svc.rows)[k].(password := Some(hashed))])
  {
    if PasswordBodyError(current, newPassword).Some? {
      r := Fail(BadRequest);
      return;
    }
    var outcome := svc.ChangePassword(id, current.s, newPassword.s, hashed);
    match outcome
    case Returned(_) => r := Respond(PASSWORD_CHANGED);
    case Threw(e) => r := Fail(StatusOf(e));
  }

  /** POST users/:id/avatar: `file` is the stored file name, None when the
      request carried no file. Without a file nothing is updated; otherwise
      exactly the returned URL is written to that user's avatar. */
  method UploadAvatar(svc: Service, id: string, file: Option<string>, backendUrl: Option<string>)
    returns (r: Reply<string>)
    requires svc.Valid()
    modifies svc
    ensures svc.Valid()
    ensures file.None? ==> r == Fail(BadRequest) && svc.rows == old(svc.rows)
    ensures file.Some? && IndexOfId(old(svc.rows), id).None? ==> r == Fail(NotFound) && svc.rows == old(svc.rows)
    ensures file.Some? && IndexOfId(old(svc.rows), id).Some? ==>
              var k := IndexOfId(old(svc.rows), id).value;
              var url := AvatarUrl(backendUrl, file.value);
              && r == Respond(url)
              && svc.rows == old(svc.rows)[k := old(svc.rows)[k].(avatarUrl := url)]
              && FindOneById(svc.rows, id) == Returned(svc.rows[k])
  {
    if file.None? {
      r := Fail(BadRequest);
      return;
    }
    var url := AvatarUrl(backendUrl, file.value);
    ghost var before := svc.rows;
    var outcome := svc.UpdateUser(id, AvatarPatch(url));
    match outcome
    case Returned(_) =>
      var k := IndexOfId(before, id).value;
      AvatarPatchOnlyAvatar(before[k], url);
      UpdateReadsBack(before, k, AvatarPatch(url));
      r := Respond(url);
    case Threw(e) => r := Fail(StatusOf(e));
  }
}
