/**
 * The profile endpoints: every one needs an authenticated user (401); the
 * profile update insists on the schema of the caller's role (422); only an
 * applicant uploads a resume (403); a resume is served to any HR user and to
 * its owner, with the media type its extension names.
 */
module UserRouter {
  import opened Wrappers
  import opened Strings
  import opened Http
  import opened Db
  import opened Security
  import opened UserService

  const OctetStream := "application/octet-stream"
  const UseHrSchema := "Use schema HrUpdate"
  const UseApplicantSchema := "Use schema ApplicantUpdate"
  const OnlyApplicantsUpload := "Only applicants can upload their resume"
  const NotAllowed := "Not allowed"
  const ResumeNotFound := "Resume not found"
  const FileMissing := "File not found on server"

  /** The media type served for a (lower-cased) extension. */
  function MediaType(ext: string): (r: string)
    ensures r == OctetStream <==> !IsAllowedExt(ext)
    ensures ext == ".pdf" ==> r == "application/pdf"
    ensures ext == ".txt" ==> r == "text/plain"
  {
    if ext == ".pdf" then "application/pdf"
    else if ext == ".docx" then "application/vnd.openxmlformats-officedocument.wordprocessingml.document"
    else if ext == ".doc" then "application/msword"
    else if ext == ".txt" then "text/plain"
    else OctetStream
  }

  /**
   * The extension `os.path.splitext` splits off: from the last dot after the
   * last slash, unless only dots precede it in the file name.
   */
  function SplitExt(p: string): (r: string)
    ensures r == "" || (r[0] == '.' && EndsWith(p, r))
  {
    match RFind(p, '.')
    case None => ""
    case Some(dot) =>
      var start := match RFind(p, '/') case None => 0 case Some(sep) => sep + 1;
      if start <= dot && exists i :: start <= i < dot && p[i] != '.' then p[dot..] else ""
  }

  /** A file sent back: its path, media type and download name. */
  datatype FileReply = FileReply(path: string, mediaType: string, filename: string)

  /** GET /me: the caller's own profile. */
  function GetMe(d: Decoded, users: seq<UserRow>, hrProfiles: seq<HrProfileRow>,
                 applicantProfiles: seq<ApplicantProfileRow>): (r: Reply<ProfileView>)
    ensures GetCurrentUser(d, users).Err? ==> r == Failure(GetCurrentUser(d, users).error)
    ensures GetCurrentUser(d, users).Ok? ==>
      match GetUserProfile(GetCurrentUser(d, users).value, hrProfiles, applicantProfiles)
      case Ok(v) => r == Reply(Http.Ok, v)
      case Err(e) => r == Failure(e) && e.status == NotFound
  {
    match GetCurrentUser(d, users)
    case Err(e) => Failure(e)
    case Ok(u) =>
      match GetUserProfile(u, hrProfiles, applicantProfiles)
      case Err(e) => Failure(e)
      case Ok(v) => Reply(Http.Ok, v)
  }

  /** The schema check of PUT /me: an hr user must send HrUpdate, an applicant ApplicantUpdate. */
  function SchemaCheck(role: string, update: ProfileUpdate): (r: Option<HttpError>)
    ensures r.Some? <==> (role == HrRole && !update.HrUpdate?) || (role == ApplicantRole && !update.ApplicantUpdate?)
    ensures r.Some? ==> r.value.status == UnprocessableEntity
  {
    if role == HrRole && !update.HrUpdate? then Some(HttpError(UnprocessableEntity, UseHrSchema))
    else if role == ApplicantRole && !update.ApplicantUpdate? then Some(HttpError(UnprocessableEntity, UseApplicantSchema))
    else None
  }

  /** PUT /me: 401, then 422 for the wrong schema (nothing written), then the update. */
  method PutMe(db: Database, d: Decoded, update: ProfileUpdate) returns (r: Reply<ProfileView>)
    modifies db
    ensures GetCurrentUser(d, old(db.users)).Err? ==>
      r == Failure(GetCurrentUser(d, old(db.users)).error) && unchanged(db)
    ensures GetCurrentUser(d, old(db.users)).Ok? && SchemaCheck(GetCurrentUser(d, old(db.users)).value.role, update).Some? ==>
      r == Failure(SchemaCheck(GetCurrentUser(d, old(db.users)).value.role, update).value) && unchanged(db)
    ensures r.Reply? ==> r.status == Http.Ok && r == GetMe(d, db.users, db.hrProfiles, db.applicantProfiles)
    ensures r.Failure? ==> r.error.status in {Unauthorized, UnprocessableEntity, NotFound}
    ensures db.users == old(db.users) && db.resumeVersions == old(db.resumeVersions)
  {
    var auth := GetCurrentUser(d, db.users);
    if auth.Err? {
      return Failure(auth.error);
    }
    var bad := SchemaCheck(auth.value.role, update);
    if bad.Some? {
      return Failure(bad.value);
    }
    var res := UpdateUserProfile(db, auth.value, update);
    if res.Err? {
      return Failure(res.error);
    }
    r := Reply(Http.Ok, res.value);
  }

  /** POST /me/resume: only an applicant uploads (403 otherwise, nothing written); success is 201. */
  method UploadMyResume(db: Database, store: FileStore, d: Decoded, filename: string, data: seq<bv8>,
                        resumesDir: string, hex: string, sha256: seq<bv8> -> string)
    returns (r: Reply<ProfileView>)
    modifies db, store
    ensures GetCurrentUser(d, old(db.users)).Err? ==>
      r == Failure(GetCurrentUser(d, old(db.users)).error) && unchanged(db) && unchanged(store)
    ensures GetCurrentUser(d, old(db.users)).Ok? && GetCurrentUser(d, old(db.users)).value.role != ApplicantRole ==>
      r == Failure(HttpError(Forbidden, OnlyApplicantsUpload)) && unchanged(db) && unchanged(store)
    ensures r.Reply? ==> r.status == Created && GetCurrentUser(d, old(db.users)).value.role == ApplicantRole
    ensures r.Reply? ==>
      var u := GetCurrentUser(d, old(db.users)).value;
      r.body.ApplicantView? && r.body.cv == Some(JoinPath(resumesDir, StoredName(u.id, hex, UploadExt(filename))))
    ensures r.Failure? ==> r.error.status in {Unauthorized, Forbidden, NotFound, UnsupportedMediaType, PayloadTooLarge}
    ensures r.Failure? ==> db.applicantProfiles == old(db.applicantProfiles) && db.resumeVersions == old(db.resumeVersions)
  {
    var auth := GetCurrentUser(d, db.users);
    if auth.Err? {
      return Failure(auth.error);
    }
    if auth.value.role != ApplicantRole {
      return Failure(HttpError(Forbidden, OnlyApplicantsUpload));
    }
    var res := SaveResume(db, store, auth.value, filename, data, resumesDir, hex, sha256);
    if res.Err? {
      return Failure(res.error);
    }
    r := Reply(Created, res.value);
  }

  /** Who may read a user's resume: any HR user, and the user themself. */
  predicate MayReadResume(caller: UserRow, userId: int)
  {
    caller.role == HrRole || caller.id == userId
  }

  /**
   * GET /resume/{user_id}: 403 unless allowed; 404 without a profile or a cv,
   * and 404 when the file is not on disk; otherwise the file with the media
   * type of its extension and its own name.
   */
  function GetResume(d: Decoded, users: seq<UserRow>, applicantProfiles: seq<ApplicantProfileRow>,
                     files: map<string, seq<bv8>>, userId: int): (r: Reply<FileReply>)
    ensures GetCurrentUser(d, users).Err? ==> r == Failure(GetCurrentUser(d, users).error)
    ensures GetCurrentUser(d, users).Ok? ==>
      (r == Failure(HttpError(Forbidden, NotAllowed)) <==> !MayReadResume(GetCurrentUser(d, users).value, userId))
    ensures r.Reply? ==>
      var k := ApplicantProfileIndex(applicantProfiles, userId);
      k.Some? && applicantProfiles[k.value].cv == Some(r.body.path) && r.body.path != "" && r.body.path in files
    ensures r.Reply? ==> r.status == Http.Ok && r.body.filename == BaseName(r.body.path)
    ensures r.Reply? ==> r.body.mediaType == MediaType(Lower(SplitExt(r.body.path)))
    ensures r.Failure? ==> r.error.status in {Unauthorized, Forbidden, NotFound}
  {
    match GetCurrentUser(d, users)
    case Err(e) => Failure(e)
    case Ok(caller) =>
      if !MayReadResume(caller, userId) then Failure(HttpError(Forbidden, NotAllowed))
      else match ApplicantProfileIndex(applicantProfiles, userId)
        case None => Failure(HttpError(NotFound, ResumeNotFound))
        case Some(k) =>
          var cv := applicantProfiles[k].cv;
          if cv.None? || cv.value == "" then Failure(HttpError(NotFound, ResumeNotFound))
          else if cv.value !in files then Failure(HttpError(NotFound, FileMissing))
          else Reply(Http.Ok, FileReply(cv.value, MediaType(Lower(SplitExt(cv.value))), BaseName(cv.value)))
  }

  /** A token made of lower-case hexadecimal digits, as `uuid4().hex` is. */
  predicate IsHexToken(hex: string)
  {
    forall i :: 0 <= i < |hex| ==> '0' <= hex[i] <= '9' || 'a' <= hex[i] <= 'f'
  }

  /** The file name of a path joined from a directory and a plain name is that name. */
  lemma BaseNameOfJoin(dir: string, name: string)
    requires forall i :: 0 <= i < |name| ==> name[i] != '/'
    ensures BaseName(JoinPath(dir, name)) == name
  {
    var p := JoinPath(dir, name);
    RFindIs(p, '/', |p| - |name| - 1);
  }

  /** splitext on a path whose file name starts with a non-dot and holds one last dot at `dot`. */
  lemma SplitExtAt(p: string, sep: nat, dot: nat)
    requires sep + 1 < dot < |p| && p[sep] == '/' && p[dot] == '.' && p[sep + 1] != '.'
    requires forall i :: dot < i < |p| ==> p[i] != '.'
    requires forall i :: sep < i < |p| ==> p[i] != '/'
    ensures SplitExt(p) == p[dot..]
  {
    RFindIs(p, '.', dot);
    RFindIs(p, '/', sep);
  }

  /**
   * The extension `os.path.splitext` finds in a stored path is the extension
   * the file was stored with, when the name before it does not start with a dot.
   */
  lemma SplitExtOfJoin(dir: string, stem: string, ext: string)
    requires stem != [] && stem[0] != '.'
    requires forall i :: 0 <= i < |stem| ==> stem[i] != '/'
    requires ext != [] && ext[0] == '.' && forall i :: 1 <= i < |ext| ==> ext[i] != '.' && ext[i] != '/'
    ensures SplitExt(JoinPath(dir, stem + ext)) == ext
  {
    var name := stem + ext;
    forall i | 0 <= i < |name|
      ensures name[i] != '/'
    {
      if i >= |stem| {
        assert name[i] == ext[i - |stem|];
      }
    }
    SplitExtOfName(JoinPath(dir, name), stem, ext);
  }

  /** The same, for any path that ends in a slash and then the stored name. */
  lemma SplitExtOfName(p: string, stem: string, ext: string)
    requires stem != [] && stem[0] != '.'
    requires ext != [] && ext[0] == '.' && forall i :: 1 <= i < |ext| ==> ext[i] != '.'
    requires forall i :: 0 <= i < |stem + ext| ==> (stem + ext)[i] != '/'
    requires EndsWith(p, stem + ext) && |p| > |stem + ext| && p[|p| - |stem + ext| - 1] == '/'
    ensures SplitExt(p) == ext
  {
    var name := stem + ext;
    var sep := |p| - |name| - 1;
    var dot := |p| - |ext|;
    assert p[sep + 1..] == name;
    assert p[dot..] == ext;
    forall i | sep < i < |p|
      ensures p[i] != '/'
    {
      assert p[i] == name[i - sep - 1];
    }
    SplitExtAt(p, sep, dot);
  }

  /** The four accepted extensions are already lower case. */
  lemma AllowedExtIsLower(ext: string)
    requires IsAllowedExt(ext)
    ensures Lower(ext) == ext
  {
    forall i | 0 <= i < |ext| ensures Lower(ext)[i] == ext[i] {
    }
  }

  /** The name an upload is stored under is a stem that starts with a digit or '-' and holds no slash, then the extension. */
  lemma StoredStem(userId: int, hex: string)
    requires IsHexToken(hex)
    ensures var stem := IntToString(userId) + "_" + hex;
      stem != [] && stem[0] != '.' && forall i :: 0 <= i < |stem| ==> stem[i] != '/'
  {
    var digits := IntToString(userId);
    var stem := digits + "_" + hex;
    assert stem[0] == digits[0];
    forall i | 0 <= i < |stem| ensures stem[i] != '/' {
      if i < |digits| {
        assert stem[i] == digits[i];
      } else if i > |digits| {
        assert stem[i] == hex[i - |digits| - 1];
      }
    }
  }

  /** Each accepted extension is a dot followed by letters. */
  lemma AllowedExtShape(ext: string)
    requires IsAllowedExt(ext)
    ensures ext != [] && ext[0] == '.' && forall i :: 1 <= i < |ext| ==> ext[i] != '.' && ext[i] != '/'
  {
  }

  lemma NoSlashConcat(a: string, b: string)
    requires forall i :: 0 <= i < |a| ==> a[i] != '/'
    requires forall i :: 0 <= i < |b| ==> b[i] != '/'
    ensures forall i :: 0 <= i < |a + b| ==> (a + b)[i] != '/'
  {
  }

  /** A stored path splits back into the stored name and the extension it was stored with. */
  lemma StoredPath(resumesDir: string, userId: int, hex: string, ext: string)
    requires IsAllowedExt(ext) && IsHexToken(hex)
    ensures var path := JoinPath(resumesDir, StoredName(userId, hex, ext));
      SplitExt(path) == ext && BaseName(path) == StoredName(userId, hex, ext)
  {
    var stem := IntToString(userId) + "_" + hex;
    assert StoredName(userId, hex, ext) == stem + ext;
    StoredStem(userId, hex);
    AllowedExtShape(ext);
    SplitExtOfJoin(resumesDir, stem, ext);
    NoSlashConcat(stem, ext);
    BaseNameOfJoin(resumesDir, stem + ext);
  }

  /**
   * A resume stored by an upload is served back by GET /resume to its owner
   * and to any HR user: under its stored name, with the media type of its
   * extension, never the generic octet-stream.
   */
  lemma UploadedResumeServed(d: Decoded, users: seq<UserRow>, profiles: seq<ApplicantProfileRow>,
                             files: map<string, seq<bv8>>, userId: int, resumesDir: string, hex: string, ext: string)
    requires GetCurrentUser(d, users).Ok? && MayReadResume(GetCurrentUser(d, users).value, userId)
    requires IsAllowedExt(ext) && IsHexToken(hex)
    requires ApplicantProfileIndex(profiles, userId).Some?
    requires profiles[ApplicantProfileIndex(profiles, userId).value].cv == Some(JoinPath(resumesDir, StoredName(userId, hex, ext)))
    requires JoinPath(resumesDir, StoredName(userId, hex, ext)) in files
    ensures var path := JoinPath(resumesDir, StoredName(userId, hex, ext));
      GetResume(d, users, profiles, files, userId) == Reply(Http.Ok, FileReply(path, MediaType(ext), StoredName(userId, hex, ext)))
    ensures MediaType(ext) != OctetStream
  {
    StoredPath(resumesDir, userId, hex, ext);
    AllowedExtIsLower(ext);
  }
}
