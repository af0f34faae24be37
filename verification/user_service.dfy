/**
 * The user profile service: reading and patching the caller's own profile,
 * and storing an uploaded resume. An upload is refused unless its extension
 * is one of four document types, is read in 1 MiB chunks and refused once
 * more than 10 MiB have arrived, and becomes the applicant's only current
 * resume version.
 */
module UserService {
  import opened Wrappers
  import opened Strings
  import opened Http
  import opened Db

  const MaxFileMb := 10
  const MaxFileBytes := MaxFileMb * 1024 * 1024
  const ChunkSize := 1024 * 1024
  const HrProfileMissing := "HR profile not found"
  const ApplicantProfileMissing := "Applicant profile not found"
  const TooLargeDetail := "File too large (> 10 MB)"
  const UnsupportedPrefix := "Unsupported file type: "

  // ---- profiles ----

  /** The fields an update schema can set. */
  datatype ProfileField = FieldName | FieldSurname | FieldPatronymic | FieldContacts | FieldDepartment | FieldSummary

  /** A validated update body: the fields the client set (`exclude_unset`), each with its value, null included. */
  datatype ProfileUpdate =
    | HrUpdate(fields: seq<(ProfileField, Option<string>)>)
    | ApplicantUpdate(fields: seq<(ProfileField, Option<string>)>)

  /** A profile as the response schemas show it; the email is that of the profile's user. */
  datatype ProfileView =
    | HrView(email: string, name: Option<string>, surname: Option<string>, patronymic: Option<string>,
             department: Option<string>, contacts: Option<string>)
    | ApplicantView(email: string, name: Option<string>, surname: Option<string>, patronymic: Option<string>,
                    contacts: Option<string>, cv: Option<string>, summary: Option<string>)

  /** The editable columns of each profile table; setting any other attribute is not stored. */
  predicate IsHrColumn(f: ProfileField) { f != FieldSummary }
  predicate IsApplicantColumn(f: ProfileField) { f != FieldDepartment }

  /** Editable field values by name. */
  type Fields = map<ProfileField, Option<string>>

  function Lookup(m: Fields, f: ProfileField): Option<string>
  {
    if f in m then m[f] else None
  }

  /** No field is set twice: the update is a dictionary. */
  predicate DistinctKeys(u: seq<(ProfileField, Option<string>)>)
  {
    forall i, j :: 0 <= i < j < |u| ==> u[i].0 != u[j].0
  }

  /** The editable columns of an HR profile. */
  function HrFields(p: HrProfileRow): (r: Fields)
    ensures forall f :: f in r <==> IsHrColumn(f)
  {
    map[FieldName := p.name, FieldSurname := p.surname, FieldPatronymic := p.patronymic,
        FieldDepartment := p.department, FieldContacts := p.contacts]
  }

  /** An HR profile whose editable columns are taken from m. */
  function HrWithFields(p: HrProfileRow, m: Fields): (r: HrProfileRow)
    ensures r.id == p.id && r.userId == p.userId
    ensures forall f :: IsHrColumn(f) ==> Lookup(HrFields(r), f) == Lookup(m, f)
  {
    p.(name := Lookup(m, FieldName), surname := Lookup(m, FieldSurname), patronymic := Lookup(m, FieldPatronymic),
       department := Lookup(m, FieldDepartment), contacts := Lookup(m, FieldContacts))
  }

  /** The editable columns of an applicant profile. */
  function ApplicantFields(p: ApplicantProfileRow): (r: Fields)
    ensures forall f :: f in r <==> IsApplicantColumn(f)
  {
    map[FieldName := p.name, FieldSurname := p.surname, FieldPatronymic := p.patronymic,
        FieldContacts := p.contacts, FieldSummary := p.summary]
  }

  /** An applicant profile whose editable columns are taken from m; the key, user and cv stay. */
  function ApplicantWithFields(p: ApplicantProfileRow, m: Fields): (r: ApplicantProfileRow)
    ensures r.id == p.id && r.userId == p.userId && r.cv == p.cv
    ensures forall f :: IsApplicantColumn(f) ==> Lookup(ApplicantFields(r), f) == Lookup(m, f)
  {
    p.(name := Lookup(m, FieldName), surname := Lookup(m, FieldSurname), patronymic := Lookup(m, FieldPatronymic),
       contacts := Lookup(m, FieldContacts), summary := Lookup(m, FieldSummary))
  }

  /** Writing a profile's own fields back changes nothing. */
  lemma FieldsRoundTrip(h: HrProfileRow, a: ApplicantProfileRow)
    ensures HrWithFields(h, HrFields(h)) == h
    ensures ApplicantWithFields(a, ApplicantFields(a)) == a
  {
  }

  /** The fields after the `setattr` loop: every set field that is a column takes its value, in order. */
  function Patch(m: Fields, u: seq<(ProfileField, Option<string>)>, isColumn: ProfileField -> bool): Fields
  {
    if u == [] then m
    else
      var before := Patch(m, u[..|u| - 1], isColumn);
      var f := u[|u| - 1].0;
      if isColumn(f) then before[f := u[|u| - 1].1] else before
  }

  /** A field the update does not set, or that is not a column, keeps its value. */
  lemma {:induction false} PatchKeeps(m: Fields, u: seq<(ProfileField, Option<string>)>, isColumn: ProfileField -> bool,
                                      f: ProfileField)
    requires !isColumn(f) || forall k :: 0 <= k < |u| ==> u[k].0 != f
    ensures Lookup(Patch(m, u, isColumn), f) == Lookup(m, f)
  {
    if u != [] {
      assert forall k :: 0 <= k < |u| - 1 ==> u[..|u| - 1][k] == u[k];
      PatchKeeps(m, u[..|u| - 1], isColumn, f);
    }
  }

  /** A column the update sets takes the value it is set to. */
  lemma {:induction false} PatchSets(m: Fields, u: seq<(ProfileField, Option<string>)>, isColumn: ProfileField -> bool,
                                     k: nat)
    requires DistinctKeys(u) && k < |u| && isColumn(u[k].0)
    ensures Lookup(Patch(m, u, isColumn), u[k].0) == u[k].1
  {
    var init := u[..|u| - 1];
    if k < |u| - 1 {
      assert init[k] == u[k];
      assert DistinctKeys(init) by {
        forall i, j | 0 <= i < j < |init| ensures init[i].0 != init[j].0 {
          assert init[i] == u[i] && init[j] == u[j];
        }
      }
      PatchSets(m, init, isColumn, k);
      assert u[|u| - 1].0 != u[k].0;
    }
  }

  /** Applying the same update twice gives the fields of applying it once. */
  lemma PatchIdempotent(m: Fields, u: seq<(ProfileField, Option<string>)>, isColumn: ProfileField -> bool, f: ProfileField)
    requires DistinctKeys(u)
    ensures Lookup(Patch(Patch(m, u, isColumn), u, isColumn), f) == Lookup(Patch(m, u, isColumn), f)
  {
    var once := Patch(m, u, isColumn);
    if isColumn(f) && exists k :: 0 <= k < |u| && u[k].0 == f {
      var k :| 0 <= k < |u| && u[k].0 == f;
      PatchSets(m, u, isColumn, k);
      PatchSets(once, u, isColumn, k);
    } else {
      PatchKeeps(once, u, isColumn, f);
    }
  }

  /** The `setattr` loop over the set fields of an update. */
  method PatchFields(m: Fields, u: seq<(ProfileField, Option<string>)>, isColumn: ProfileField -> bool) returns (r: Fields)
    ensures r == Patch(m, u, isColumn)
  {
    r := m;
    for i := 0 to |u|
      invariant r == Patch(m, u[..i], isColumn)
    {
      assert u[..i + 1][..i] == u[..i];
      var (f, v) := u[i];
      if isColumn(f) {
        r := r[f := v];
      }
    }
    assert u[..|u|] == u;
  }

  /** An HR profile after an update. */
  function PatchedHr(p: HrProfileRow, u: seq<(ProfileField, Option<string>)>): HrProfileRow
  {
    HrWithFields(p, Patch(HrFields(p), u, IsHrColumn))
  }

  /** An applicant profile after an update. */
  function PatchedApplicant(p: ApplicantProfileRow, u: seq<(ProfileField, Option<string>)>): ApplicantProfileRow
  {
    ApplicantWithFields(p, Patch(ApplicantFields(p), u, IsApplicantColumn))
  }

  /**
   * An updated HR profile: every column the update sets has its new value,
   * every other column and the key and the user are kept.
   */
  lemma PatchedHrFields(p: HrProfileRow, u: seq<(ProfileField, Option<string>)>, f: ProfileField)
    requires DistinctKeys(u) && IsHrColumn(f)
    ensures PatchedHr(p, u).id == p.id && PatchedHr(p, u).userId == p.userId
    ensures forall k :: 0 <= k < |u| && u[k].0 == f ==> Lookup(HrFields(PatchedHr(p, u)), f) == u[k].1
    ensures (forall k :: 0 <= k < |u| ==> u[k].0 != f) ==> Lookup(HrFields(PatchedHr(p, u)), f) == Lookup(HrFields(p), f)
  {
    forall k | 0 <= k < |u| && u[k].0 == f
      ensures Lookup(HrFields(PatchedHr(p, u)), f) == u[k].1
    {
      PatchSets(HrFields(p), u, IsHrColumn, k);
    }
    if forall k :: 0 <= k < |u| ==> u[k].0 != f {
      PatchKeeps(HrFields(p), u, IsHrColumn, f);
    }
  }

  /**
   * An updated applicant profile: every column the update sets has its new
   * value; the other columns, the key, the user and the cv are kept.
   */
  lemma PatchedApplicantFields(p: ApplicantProfileRow, u: seq<(ProfileField, Option<string>)>, f: ProfileField)
    requires DistinctKeys(u) && IsApplicantColumn(f)
    ensures PatchedApplicant(p, u).id == p.id && PatchedApplicant(p, u).userId == p.userId
    ensures PatchedApplicant(p, u).cv == p.cv
    ensures forall k :: 0 <= k < |u| && u[k].0 == f ==> Lookup(ApplicantFields(PatchedApplicant(p, u)), f) == u[k].1
    ensures (forall k :: 0 <= k < |u| ==> u[k].0 != f) ==>
      Lookup(ApplicantFields(PatchedApplicant(p, u)), f) == Lookup(ApplicantFields(p), f)
  {
    forall k | 0 <= k < |u| && u[k].0 == f
      ensures Lookup(ApplicantFields(PatchedApplicant(p, u)), f) == u[k].1
    {
      PatchSets(ApplicantFields(p), u, IsApplicantColumn, k);
    }
    if forall k :: 0 <= k < |u| ==> u[k].0 != f {
      PatchKeeps(ApplicantFields(p), u, IsApplicantColumn, f);
    }
  }

  function HrViewOf(p: HrProfileRow, email: string): (r: ProfileView)
    ensures r.HrView? && r.email == email
    ensures r.name == p.name && r.surname == p.surname && r.patronymic == p.patronymic
    ensures r.department == p.department && r.contacts == p.contacts
  {
    HrView(email, p.name, p.surname, p.patronymic, p.department, p.contacts)
  }

  function ApplicantViewOf(p: ApplicantProfileRow, email: string): (r: ProfileView)
    ensures r.ApplicantView? && r.email == email && r.cv == p.cv && r.summary == p.summary
    ensures r.name == p.name && r.surname == p.surname && r.patronymic == p.patronymic && r.contacts == p.contacts
  {
    ApplicantView(email, p.name, p.surname, p.patronymic, p.contacts, p.cv, p.summary)
  }

  /**
   * get_user_profile: an hr user sees their HR profile, every other user
   * their applicant profile; a missing profile is 404.
   */
  function GetUserProfile(user: UserRow, hrProfiles: seq<HrProfileRow>, applicantProfiles: seq<ApplicantProfileRow>)
    : (r: Result<ProfileView, HttpError>)
    ensures user.role == HrRole ==>
      (r.Err? <==> HrProfileIndex(hrProfiles, user.id).None?)
    ensures user.role != HrRole ==>
      (r.Err? <==> ApplicantProfileIndex(applicantProfiles, user.id).None?)
    ensures r.Err? ==> r.error == HttpError(NotFound, if user.role == HrRole then HrProfileMissing else ApplicantProfileMissing)
    ensures r.Ok? ==> r.value.email == user.email && (r.value.HrView? <==> user.role == HrRole)
    ensures r.Ok? && user.role == HrRole ==> r.value == HrViewOf(hrProfiles[HrProfileIndex(hrProfiles, user.id).value], user.email)
    ensures r.Ok? && user.role != HrRole ==>
      r.value == ApplicantViewOf(applicantProfiles[ApplicantProfileIndex(applicantProfiles, user.id).value], user.email)
  {
    if user.role == HrRole then
      match HrProfileIndex(hrProfiles, user.id)
      case None => Err(HttpError(NotFound, HrProfileMissing))
      case Some(k) => Ok(HrViewOf(hrProfiles[k], user.email))
    else
      match ApplicantProfileIndex(applicantProfiles, user.id)
      case None => Err(HttpError(NotFound, ApplicantProfileMissing))
      case Some(k) => Ok(ApplicantViewOf(applicantProfiles[k], user.email))
  }

  /** Replacing the first profile of a user by one of the same user keeps it the first. */
  lemma HrIndexAfterReplace(ps: seq<HrProfileRow>, userId: int, q: HrProfileRow)
    requires HrProfileIndex(ps, userId).Some? && q.userId == userId
    ensures HrProfileIndex(ps[HrProfileIndex(ps, userId).value := q], userId) == HrProfileIndex(ps, userId)
  {
    var k := HrProfileIndex(ps, userId).value;
    var ps' := ps[k := q];
    var k' := HrProfileIndex(ps', userId);
    assert ps'[k].userId == userId;
  }

  lemma ApplicantIndexAfterReplace(ps: seq<ApplicantProfileRow>, userId: int, q: ApplicantProfileRow)
    requires ApplicantProfileIndex(ps, userId).Some? && q.userId == userId
    ensures ApplicantProfileIndex(ps[ApplicantProfileIndex(ps, userId).value := q], userId) == ApplicantProfileIndex(ps, userId)
  {
    var k := ApplicantProfileIndex(ps, userId).value;
    var ps' := ps[k := q];
    var k' := ApplicantProfileIndex(ps', userId);
    assert ps'[k].userId == userId;
  }

  /**
   * update_user_profile: as the read, an hr user's HR profile and every other
   * user's applicant profile; a missing one is 404 and nothing changes;
   * otherwise the set fields are written and the reply is what a read now shows.
   */
  method UpdateUserProfile(db: Database, user: UserRow, update: ProfileUpdate) returns (r: Result<ProfileView, HttpError>)
    modifies db
    ensures r == GetUserProfile(user, db.hrProfiles, db.applicantProfiles)
    ensures r.Err? ==> db.hrProfiles == old(db.hrProfiles) && db.applicantProfiles == old(db.applicantProfiles)
    ensures r.Err? <==> GetUserProfile(user, old(db.hrProfiles), old(db.applicantProfiles)).Err?
    ensures user.role == HrRole && HrProfileIndex(old(db.hrProfiles), user.id).Some? ==>
      var k := HrProfileIndex(old(db.hrProfiles), user.id).value;
      db.hrProfiles == old(db.hrProfiles)[k := PatchedHr(old(db.hrProfiles)[k], update.fields)]
    ensures user.role != HrRole && ApplicantProfileIndex(old(db.applicantProfiles), user.id).Some? ==>
      var k := ApplicantProfileIndex(old(db.applicantProfiles), user.id).value;
      db.applicantProfiles == old(db.applicantProfiles)[k := PatchedApplicant(old(db.applicantProfiles)[k], update.fields)]
    ensures user.role == HrRole ==> db.applicantProfiles == old(db.applicantProfiles)
    ensures user.role != HrRole ==> db.hrProfiles == old(db.hrProfiles)
    ensures db.users == old(db.users) && db.vacancies == old(db.vacancies) && db.applications == old(db.applications)
    ensures db.meetings == old(db.meetings) && db.resumeVersions == old(db.resumeVersions) && db.interviews == old(db.interviews)
  {
    if user.role == HrRole {
      var idx := HrProfileIndex(db.hrProfiles, user.id);
      if idx.None? {
        return Err(HttpError(NotFound, HrProfileMissing));
      }
      var k := idx.value;
      var p := db.hrProfiles[k];
      var fields := PatchFields(HrFields(p), update.fields, IsHrColumn);
      HrIndexAfterReplace(db.hrProfiles, user.id, HrWithFields(p, fields));
      db.hrProfiles := db.hrProfiles[k := HrWithFields(p, fields)];
      r := Ok(HrViewOf(db.hrProfiles[k], user.email));
    } else {
      var idx := ApplicantProfileIndex(db.applicantProfiles, user.id);
      if idx.None? {
        return Err(HttpError(NotFound, ApplicantProfileMissing));
      }
      var k := idx.value;
      var p := db.applicantProfiles[k];
      var fields := PatchFields(ApplicantFields(p), update.fields, IsApplicantColumn);
      ApplicantIndexAfterReplace(db.applicantProfiles, user.id, ApplicantWithFields(p, fields));
      db.applicantProfiles := db.applicantProfiles[k := ApplicantWithFields(p, fields)];
      r := Ok(ApplicantViewOf(db.applicantProfiles[k], user.email));
    }
  }

  // ---- save_resume_for_user ----

  /** The last component of a path (`Path.name`). */
  function BaseName(path: string): (r: string)
    ensures forall i :: 0 <= i < |r| ==> r[i] != '/'
    ensures EndsWith(path, r)
    ensures r == path || path[|path| - |r| - 1] == '/'
  {
    match RFind(path, '/')
    case None => path
    case Some(i) => path[i + 1..]
  }

  /**
   * `Path.suffix`: from the last dot of the name, provided that dot is
   * neither the name's first nor its last character.
   */
  function Suffix(name: string): (r: string)
    ensures r == "" || (|r| >= 2 && r[0] == '.' && EndsWith(name, r) && |r| < |name|)
    ensures r != "" ==> forall i :: 1 <= i < |r| ==> r[i] != '.'
    ensures r == "" <==> forall i :: 0 < i < |name| - 1 ==> name[i] != '.' || exists j :: i < j < |name| && name[j] == '.'
  {
    match RFind(name, '.')
    case None => ""
    case Some(i) => if 0 < i < |name| - 1 then name[i..] else ""
  }

  /** The extensions a resume may have (compared after lower-casing). */
  predicate IsAllowedExt(ext: string)
  {
    ext == ".pdf" || ext == ".docx" || ext == ".doc" || ext == ".txt"
  }

  /** The extension an uploaded file is judged by. */
  function UploadExt(filename: string): string
  {
    Lower(Suffix(BaseName(filename)))
  }

  /** The stored file name: the user id, an underscore, a random hex token, the extension. */
  function StoredName(userId: int, hex: string, ext: string): (r: string)
    ensures EndsWith(r, ext) && StartsWith(r, IntToString(userId) + "_")
  {
    IntToString(userId) + "_" + hex + ext
  }

  /**
   * `dir / name` for a directory path and a plain file name. The resumes
   * directory is always an absolute path (the router resolves it before
   * passing it), so pathlib's `Path("") / name`, which gives `name` alone,
   * does not arise.
   */
  function JoinPath(dir: string, name: string): (r: string)
    ensures EndsWith(r, name) && |r| > |name| && r[|r| - |name| - 1] == '/'
  {
    if dir != [] && dir[|dir| - 1] == '/' then dir + name else dir + "/" + name
  }

  /** The files on the server's disk, by path. */
  class FileStore {
    var files: map<string, seq<bv8>>

    constructor(files0: map<string, seq<bv8>>)
      ensures files == files0
    {
      files := files0;
    }
  }

  /**
   * The copy loop: the file is opened empty, then each chunk of at most 1 MiB
   * is counted, and written and hashed unless the count has passed 10 MiB.
   * The upload fails exactly when it is larger than 10 MiB, and then the
   * file keeps the first 10 MiB.
   */
  method CopyUpload(store: FileStore, dest: string, data: seq<bv8>) returns (r: Result<seq<bv8>, HttpError>)
    modifies store
    ensures r.Err? <==> |data| > MaxFileBytes
    ensures r.Err? ==> r.error == HttpError(PayloadTooLarge, TooLargeDetail)
    ensures r.Err? ==> store.files == old(store.files)[dest := data[..MaxFileBytes]]
    ensures r.Ok? ==> r.value == data && store.files == old(store.files)[dest := data]
  {
    store.files := store.files[dest := []];
    var pos := 0;
    var total := 0;
    var count := 0;
    var hashed: seq<bv8> := [];
    while pos < |data|
      invariant 0 <= pos <= |data| && total == pos && total <= MaxFileBytes
      invariant pos < |data| ==> pos == count * ChunkSize
      invariant hashed == data[..pos]
      invariant store.files == old(store.files)[dest := hashed]
      decreases |data| - pos
    {
      var end := if pos + ChunkSize <= |data| then pos + ChunkSize else |data|;
      var chunk := data[pos..end];
      total := total + |chunk|;
      if total > MaxFileBytes {
        return Err(HttpError(PayloadTooLarge, TooLargeDetail));
      }
      store.files := store.files[dest := store.files[dest] + chunk];
      assert data[..end] == data[..pos] + chunk;
      hashed := hashed + chunk;
      pos := end;
      count := count + 1;
    }
    assert data[..pos] == data;
    r := Ok(hashed);
  }

  /** Clears the current flag of every version of one applicant, as the bulk update does. */
  function Demote(vs: seq<ResumeVersionRow>, applicantId: int): (r: seq<ResumeVersionRow>)
    ensures |r| == |vs|
    ensures forall i :: 0 <= i < |r| && r[i].applicantId == applicantId ==> !r[i].isCurrent
    ensures forall i :: 0 <= i < |r| && vs[i].applicantId != applicantId ==> r[i] == vs[i]
    ensures forall i :: 0 <= i < |r| ==> r[i].(isCurrent := vs[i].isCurrent) == vs[i]
  {
    seq(|vs|, i requires 0 <= i < |vs| =>
      if vs[i].applicantId == applicantId && vs[i].isCurrent then vs[i].(isCurrent := false) else vs[i])
  }

  /** Each applicant has at most one current resume version. */
  predicate AtMostOneCurrent(vs: seq<ResumeVersionRow>)
  {
    forall i, j :: 0 <= i < j < |vs| && vs[i].isCurrent && vs[j].isCurrent ==> vs[i].applicantId != vs[j].applicantId
  }

  /** The versions after an upload: the applicant's old ones demoted, the new one current. */
  function WithNewVersion(vs: seq<ResumeVersionRow>, v: ResumeVersionRow): seq<ResumeVersionRow>
  {
    Demote(vs, v.applicantId) + [v]
  }

  /**
   * After an upload the new version is the applicant's one current version,
   * other applicants' versions are untouched, and at most one current
   * version per applicant stays true.
   */
  lemma NewVersionIsOnlyCurrent(vs: seq<ResumeVersionRow>, v: ResumeVersionRow)
    requires v.isCurrent
    ensures var r := WithNewVersion(vs, v);
      forall i :: 0 <= i < |r| && r[i].applicantId == v.applicantId && r[i].isCurrent ==> i == |vs|
    ensures var r := WithNewVersion(vs, v);
      forall i :: 0 <= i < |vs| && vs[i].applicantId != v.applicantId ==> r[i] == vs[i]
    ensures AtMostOneCurrent(vs) ==> AtMostOneCurrent(WithNewVersion(vs, v))
  {
    var r := WithNewVersion(vs, v);
    forall i | 0 <= i < |r| && r[i].applicantId == v.applicantId && r[i].isCurrent
      ensures i == |vs|
    {
    }
    if AtMostOneCurrent(vs) {
      forall i, j | 0 <= i < j < |r| && r[i].isCurrent && r[j].isCurrent
        ensures r[i].applicantId != r[j].applicantId
      {
        assert r[i] == Demote(vs, v.applicantId)[i];
        if j < |vs| {
          assert r[j] == Demote(vs, v.applicantId)[j];
        }
      }
    }
  }

  /** The rows an accepted upload commits: a new current version, the applicant's others demoted, the new cv. */
  method CommitResume(db: Database, k: nat, dest: string, hash: string)
    requires k < |db.applicantProfiles|
    modifies db
    ensures db.resumeVersions == WithNewVersion(old(db.resumeVersions), ResumeVersionRow(old(db.applicantProfiles)[k].id, dest, hash, true))
    ensures db.applicantProfiles == old(db.applicantProfiles)[k := old(db.applicantProfiles)[k].(cv := Some(dest))]
    ensures db.users == old(db.users) && db.hrProfiles == old(db.hrProfiles) && db.vacancies == old(db.vacancies)
    ensures db.applications == old(db.applications) && db.meetings == old(db.meetings) && db.interviews == old(db.interviews)
  {
    var profile := db.applicantProfiles[k];
    db.resumeVersions := WithNewVersion(db.resumeVersions, ResumeVersionRow(profile.id, dest, hash, true));
    db.applicantProfiles := db.applicantProfiles[k := profile.(cv := Some(dest))];
  }

  /**
   * save_resume_for_user: 404 without an applicant profile and 415 for a
   * disallowed extension, both before any write; 413 once more than 10 MiB
   * arrive, leaving the partial file and no row changed; otherwise the file
   * becomes the applicant's only current version and their cv.
   */
  method SaveResume(db: Database, store: FileStore, user: UserRow, filename: string, data: seq<bv8>,
                    resumesDir: string, hex: string, sha256: seq<bv8> -> string)
    returns (r: Result<ProfileView, HttpError>)
    modifies db, store
    ensures ApplicantProfileIndex(old(db.applicantProfiles), user.id).None? ==>
      r == Err(HttpError(NotFound, ApplicantProfileMissing)) && store.files == old(store.files)
    ensures ApplicantProfileIndex(old(db.applicantProfiles), user.id).Some? && !IsAllowedExt(UploadExt(filename)) ==>
      r == Err(HttpError(UnsupportedMediaType, UnsupportedPrefix + UploadExt(filename))) && store.files == old(store.files)
    ensures ApplicantProfileIndex(old(db.applicantProfiles), user.id).Some? && IsAllowedExt(UploadExt(filename)) ==>
      (r.Err? <==> |data| > MaxFileBytes)
    ensures r.Err? ==> db.applicantProfiles == old(db.applicantProfiles) && db.resumeVersions == old(db.resumeVersions)
    ensures r.Err? && r.error.status == PayloadTooLarge ==> r.error.detail == TooLargeDetail
    ensures r.Err? && r.error.status == PayloadTooLarge ==>
      store.files == old(store.files)[JoinPath(resumesDir, StoredName(user.id, hex, UploadExt(filename))) := data[..MaxFileBytes]]
    ensures r.Err? ==> r.error.status == NotFound || r.error.status == UnsupportedMediaType || r.error.status == PayloadTooLarge
    ensures r.Ok? ==> IsAllowedExt(UploadExt(filename)) && ApplicantProfileIndex(old(db.applicantProfiles), user.id).Some?
    ensures r.Ok? ==> r.value.ApplicantView? && r.value.cv == Some(JoinPath(resumesDir, StoredName(user.id, hex, UploadExt(filename))))
    ensures r.Ok? ==> store.files == old(store.files)[JoinPath(resumesDir, StoredName(user.id, hex, UploadExt(filename))) := data]
    ensures r.Ok? ==>
      var k := ApplicantProfileIndex(old(db.applicantProfiles), user.id).value;
      var dest := JoinPath(resumesDir, StoredName(user.id, hex, UploadExt(filename)));
      db.resumeVersions == WithNewVersion(old(db.resumeVersions),
        ResumeVersionRow(old(db.applicantProfiles)[k].id, dest, sha256(data), true)) &&
      db.applicantProfiles == old(db.applicantProfiles)[k := old(db.applicantProfiles)[k].(cv := Some(dest))] &&
      r == Ok(ApplicantViewOf(db.applicantProfiles[k], user.email))
    ensures db.users == old(db.users) && db.hrProfiles == old(db.hrProfiles) && db.vacancies == old(db.vacancies)
    ensures db.applications == old(db.applications) && db.meetings == old(db.meetings) && db.interviews == old(db.interviews)
  {
    var idx := ApplicantProfileIndex(db.applicantProfiles, user.id);
    if idx.None? {
      return Err(HttpError(NotFound, ApplicantProfileMissing));
    }
    var k := idx.value;
    var ext := UploadExt(filename);
    if !IsAllowedExt(ext) {
      return Err(HttpError(UnsupportedMediaType, UnsupportedPrefix + ext));
    }
    var dest := JoinPath(resumesDir, StoredName(user.id, hex, ext));
    var copied := CopyUpload(store, dest, data);
    if copied.Err? {
      return Err(copied.error);
    }
    CommitResume(db, k, dest, sha256(copied.value));
    r := Ok(ApplicantViewOf(db.applicantProfiles[k], user.email));
  }
}
