/**
 * The HR vacancy service: the paged vacancy list in the database's order,
 * vacancy creation from a parsed document with the creation defaults, the
 * update from a new document, the status change, and the detail view with
 * one entry per application.
 */
module HrService {
  import opened Wrappers
  import opened Seqs
  import opened Strings
  import opened PyJson
  import opened Db
  import opened HrHelpers

  /** The exceptions the service raises. */
  datatype HrError =
    | NoHrProfile          // ValueError: the user has no HR profile
    | BadExp(e: PyError)   // what int() raised on the parsed `exp`
    | VacancyNotFound      // FileNotFoundError

  const NoHrProfileMessage := "У пользователя нет HR-профиля. Невозможно создать вакансию."

  /** The applications of a vacancy: the `job_applications` relationship. */
  function AppsOf(apps: seq<ApplicationRow>, vacancyId: int): (r: seq<ApplicationRow>)
    ensures forall i :: 0 <= i < |r| ==> r[i].vacancyId == Some(vacancyId)
    ensures forall a :: multiset(r)[a] == if a.vacancyId == Some(vacancyId) then multiset(apps)[a] else 0
  {
    FilterCounts(apps, ToVacancy(vacancyId));
    Filter(apps, ToVacancy(vacancyId))
  }

  function ToVacancy(vacancyId: int): ApplicationRow -> bool
  {
    (a: ApplicationRow) => a.vacancyId == Some(vacancyId)
  }

  /** The relationship lists the applications in table order: one row more at the end is listed last when it is to the vacancy. */
  lemma AppsOfSnoc(apps: seq<ApplicationRow>, a: ApplicationRow, vacancyId: int)
    ensures AppsOf(apps + [a], vacancyId) == AppsOf(apps, vacancyId) + (if a.vacancyId == Some(vacancyId) then [a] else [])
  {
    FilterSnoc(apps, a, ToVacancy(vacancyId));
  }

  /** The meetings of an application. */
  function MeetingsOf(meetings: seq<MeetingRow>, applicationId: int): (r: seq<MeetingRow>)
    ensures forall i :: 0 <= i < |r| ==> r[i].applicationId == applicationId
    ensures forall m :: multiset(r)[m] == if m.applicationId == applicationId then multiset(meetings)[m] else 0
  {
    FilterCounts(meetings, OfApplication(applicationId));
    Filter(meetings, OfApplication(applicationId))
  }

  function OfApplication(applicationId: int): MeetingRow -> bool
  {
    (m: MeetingRow) => m.applicationId == applicationId
  }

  /** The relationship lists the meetings in table order: one row more at the end is listed last when it is the application's. */
  lemma MeetingsOfSnoc(meetings: seq<MeetingRow>, m: MeetingRow, applicationId: int)
    ensures MeetingsOf(meetings + [m], applicationId) == MeetingsOf(meetings, applicationId) + (if m.applicationId == applicationId then [m] else [])
  {
    FilterSnoc(meetings, m, OfApplication(applicationId));
  }

  // ---- get_vacancies: ORDER BY date DESC, id DESC (NULL dates first, as PostgreSQL sorts them) ----

  /** `a` sorts above `b` on the date: a NULL date is above every date. */
  predicate DateAbove(a: Option<int>, b: Option<int>)
  {
    a != b && (a.None? || (b.Some? && a.value > b.value))
  }

  /** x may be listed before y. */
  predicate ListedBefore(x: VacancyRow, y: VacancyRow)
  {
    DateAbove(x.date, y.date) || (x.date == y.date && x.id >= y.id)
  }

  lemma ListedBeforeTotal(x: VacancyRow, y: VacancyRow)
    ensures ListedBefore(x, y) || ListedBefore(y, x)
  {
  }

  lemma ListedBeforeTransitive(x: VacancyRow, y: VacancyRow, z: VacancyRow)
    requires ListedBefore(x, y) && ListedBefore(y, z)
    ensures ListedBefore(x, z)
  {
  }

  predicate InListOrder(s: seq<VacancyRow>)
  {
    forall i, j :: 0 <= i < j < |s| ==> ListedBefore(s[i], s[j])
  }

  /** Inserts x into an ordered list after every row that may come before it. */
  function Insert(x: VacancyRow, s: seq<VacancyRow>): (r: seq<VacancyRow>)
    ensures multiset(r) == multiset(s) + multiset{x}
    ensures |r| == |s| + 1
  {
    if s == [] then [x]
    else if ListedBefore(x, s[0]) then [x] + s
    else
      assert s == [s[0]] + s[1..];
      [s[0]] + Insert(x, s[1..])
  }

  lemma {:induction false} InsertOrdered(x: VacancyRow, s: seq<VacancyRow>)
    requires InListOrder(s)
    ensures InListOrder(Insert(x, s))
  {
    if s != [] && !ListedBefore(x, s[0]) {
      var rest := Insert(x, s[1..]);
      InsertOrdered(x, s[1..]);
      ListedBeforeTotal(x, s[0]);
      forall j | 0 <= j < |rest| ensures ListedBefore(s[0], rest[j]) {
        assert rest[j] in multiset(rest);
        if rest[j] != x {
          assert rest[j] in multiset(s[1..]);
          var k :| 0 <= k < |s[1..]| && s[1..][k] == rest[j];
          assert s[k + 1] == rest[j];
        }
      }
      var r := [s[0]] + rest;
      forall i, j | 0 <= i < j < |r| ensures ListedBefore(r[i], r[j]) {
        if i == 0 {
          assert r[j] == rest[j - 1];
        } else {
          assert r[i] == rest[i - 1] && r[j] == rest[j - 1];
        }
      }
    } else if s != [] {
      var r := [x] + s;
      forall i, j | 0 <= i < j < |r| ensures ListedBefore(r[i], r[j]) {
        if i == 0 && j > 1 {
          ListedBeforeTransitive(x, s[0], s[j - 1]);
        }
      }
    }
  }

  /** The vacancy table in the order the list query returns it. */
  function SortForList(vs: seq<VacancyRow>): (r: seq<VacancyRow>)
    ensures multiset(r) == multiset(vs)
    ensures |r| == |vs|
  {
    if vs == [] then []
    else
      assert vs == [vs[0]] + vs[1..];
      Insert(vs[0], SortForList(vs[1..]))
  }

  /** The listing order is a permutation of the table in which every row may come before the next. */
  lemma {:induction false} SortForListOrdered(vs: seq<VacancyRow>)
    ensures InListOrder(SortForList(vs))
    ensures multiset(SortForList(vs)) == multiset(vs)
  {
    if vs != [] {
      SortForListOrdered(vs[1..]);
      InsertOrdered(vs[0], SortForList(vs[1..]));
    }
  }

  /** OFFSET offset LIMIT limit. */
  function Page<T>(s: seq<T>, offset: nat, limit: nat): (r: seq<T>)
    ensures |r| == if offset >= |s| then 0 else if offset + limit <= |s| then limit else |s| - offset
    ensures forall i :: 0 <= i < |r| ==> r[i] == s[offset + i]
  {
    if offset >= |s| then [] else s[offset..if offset + limit <= |s| then offset + limit else |s|]
  }

  /** Two consecutive pages are the page that spans both. */
  lemma PagesTile<T>(s: seq<T>, offset: nat, l1: nat, l2: nat)
    ensures Page(s, offset, l1) + Page(s, offset + l1, l2) == Page(s, offset, l1 + l2)
  {
  }

  /**
   * get_vacancies: the vacancies in listing order, from `offset` on, at most
   * `limit` of them, each in its API form with its own applications.
   */
  function GetVacancies(vs: seq<VacancyRow>, apps: seq<ApplicationRow>, offset: nat, limit: nat): (r: seq<VacancyResponse>)
    ensures |r| == |Page(SortForList(vs), offset, limit)| && |r| <= limit
    ensures forall i :: 0 <= i < |r| ==>
      r[i] == VacancyToResponse(SortForList(vs)[offset + i], AppsOf(apps, SortForList(vs)[offset + i].id))
  {
    var page := Page(SortForList(vs), offset, limit);
    seq(|page|, i requires 0 <= i < |page| => VacancyToResponse(page[i], AppsOf(apps, page[i].id)))
  }

  /** The listed page is in listing order and every listed vacancy is in the table. */
  lemma GetVacanciesOrdered(vs: seq<VacancyRow>, apps: seq<ApplicationRow>, offset: nat, limit: nat)
    ensures InListOrder(Page(SortForList(vs), offset, limit))
    ensures var r := GetVacancies(vs, apps, offset, limit);
      forall i :: 0 <= i < |r| ==> exists k :: 0 <= k < |vs| && vs[k].id == r[i].vacancyId
  {
    SortForListOrdered(vs);
    var sorted := SortForList(vs);
    var r := GetVacancies(vs, apps, offset, limit);
    forall i | 0 <= i < |r| ensures exists k :: 0 <= k < |vs| && vs[k].id == r[i].vacancyId {
      assert sorted[offset + i] in multiset(vs);
      var k :| 0 <= k < |vs| && vs[k] == sorted[offset + i];
    }
  }

  // ---- create_vacancy, change_vacancy, change_vacancy_status ----

  /** The HR profile of a user: the `hr_profile` relationship. */
  function HrProfileOf(profiles: seq<HrProfileRow>, userId: int): (r: Option<HrProfileRow>)
    ensures r.Some? ==> r.value in profiles && r.value.userId == userId
    ensures r.None? <==> forall i :: 0 <= i < |profiles| ==> profiles[i].userId != userId
  {
    if profiles == [] then None
    else if profiles[0].userId == userId then Some(profiles[0])
    else HrProfileOf(profiles[1..], userId)
  }

  /** The value each column of a new vacancy starts with. */
  function DefaultValue(c: Column, department: Option<string>): Json
  {
    match c
    case Status => JStr("active")
    case OfferType => JStr("TK")
    case BusyType => JStr("allTime")
    case Department => JStr(if department.Some? then department.value else "")
    case Exp => JInt(0)
    case Degree => JBool(false)
    case BusinessTrips => JBool(false)
    case _ => JStr("")
  }

  /** The columns of a vacancy before the parsed document is applied: every column is set. */
  function CreationDefaults(department: Option<string>): (r: map<Column, Json>)
    ensures forall c :: c in r && r[c] == DefaultValue(c, department)
  {
    map c: Column | true :: DefaultValue(c, department)
  }

  /**
   * create_vacancy: refused (before anything is written) for a user without an
   * HR profile or with a profile id of 0; otherwise a vacancy owned by the
   * profile, dated now, with the creation defaults merged with the parsed
   * document, is stored unless int() rejects `exp`.
   */
  method CreateVacancy(db: Database, user: UserRow, mapped: seq<(string, Json)>, now: int, newId: int)
    returns (r: Result<VacancyResponse, HrError>)
    modifies db`vacancies
    ensures var p := HrProfileOf(db.hrProfiles, user.id);
      (p.None? || p.value.id == 0) ==> r == Err(NoHrProfile) && db.vacancies == old(db.vacancies)
    ensures var p := HrProfileOf(db.hrProfiles, user.id);
      p.Some? && p.value.id != 0 ==>
        var merged := MergeMapped(CreationDefaults(p.value.department), Getter(mapped));
        var row := VacancyRow(newId, Some(p.value.id), Some(now), merged.attrs);
        (merged.error.Some? ==> r == Err(BadExp(merged.error.value)) && db.vacancies == old(db.vacancies))
        && (merged.error.None? ==> db.vacancies == old(db.vacancies) + [row] && r == Ok(VacancyToResponse(row, AppsOf(db.applications, newId))))
  {
    var profile := HrProfileOf(db.hrProfiles, user.id);
    if profile.None? || profile.value.id == 0 {
      return Err(NoHrProfile);
    }
    r := InsertVacancy(db, profile.value, mapped, now, newId);
  }

  /** The part of create_vacancy after the profile is found: build, merge, store. */
  method InsertVacancy(db: Database, profile: HrProfileRow, mapped: seq<(string, Json)>, now: int, newId: int)
    returns (r: Result<VacancyResponse, HrError>)
    modifies db`vacancies
    ensures var merged := MergeMapped(CreationDefaults(profile.department), Getter(mapped));
      merged.error.Some? ==> r == Err(BadExp(merged.error.value)) && db.vacancies == old(db.vacancies)
    ensures var merged := MergeMapped(CreationDefaults(profile.department), Getter(mapped));
      var row := VacancyRow(newId, Some(profile.id), Some(now), merged.attrs);
      merged.error.None? ==> db.vacancies == old(db.vacancies) + [row] && r == Ok(VacancyToResponse(row, AppsOf(db.applications, newId)))
  {
    var v := new VacancyObject(VacancyRow(newId, Some(profile.id), Some(now), CreationDefaults(profile.department)));
    var error := v.ApplyMapped(mapped);
    if error.Some? {
      return Err(BadExp(error.value));
    }
    var row := v.Row();
    db.vacancies := db.vacancies + [row];
    r := Ok(VacancyToResponse(row, AppsOf(db.applications, newId)));
  }

  /** A created vacancy starts active unless the document names a status. */
  lemma CreatedVacancyStatus(department: Option<string>, got: Column -> Json)
    requires MergeMapped(CreationDefaults(department), got).error.None?
    ensures var attrs := MergeMapped(CreationDefaults(department), got).attrs;
      Attr(attrs, Status) == if Truthy(got(Status)) then got(Status) else JStr("active")
    ensures var attrs := MergeMapped(CreationDefaults(department), got).attrs;
      Attr(attrs, Department) == JStr(if department.Some? then department.value else "")
  {
    MergeKeepsOldWhenEmpty(CreationDefaults(department), got, Status);
    MergeLeavesOthers(CreationDefaults(department), got, Department);
  }

  /**
   * change_vacancy: an unknown id is FileNotFoundError; otherwise the parsed
   * document is merged into the stored vacancy, which is written back unless
   * int() rejected `exp` (then nothing is committed).
   */
  method ChangeVacancy(db: Database, vacancyId: int, mapped: seq<(string, Json)>)
    returns (r: Result<VacancyResponse, HrError>)
    modifies db
    ensures VacancyIndex(old(db.vacancies), vacancyId).None? ==> r == Err(VacancyNotFound) && db.vacancies == old(db.vacancies)
    ensures var k := VacancyIndex(old(db.vacancies), vacancyId);
      k.Some? ==>
        var merged := MergeMapped(old(db.vacancies)[k.value].attrs, Getter(mapped));
        merged.error.Some? ==> r == Err(BadExp(merged.error.value)) && db.vacancies == old(db.vacancies)
    ensures var k := VacancyIndex(old(db.vacancies), vacancyId);
      k.Some? ==>
        var merged := MergeMapped(old(db.vacancies)[k.value].attrs, Getter(mapped));
        merged.error.None? ==> db.vacancies == old(db.vacancies)[k.value := old(db.vacancies)[k.value].(attrs := merged.attrs)]
    ensures var k := VacancyIndex(old(db.vacancies), vacancyId);
      k.Some? ==>
        var merged := MergeMapped(old(db.vacancies)[k.value].attrs, Getter(mapped));
        merged.error.None? ==>
          r == Ok(VacancyToResponse(old(db.vacancies)[k.value].(attrs := merged.attrs), AppsOf(db.applications, vacancyId)))
    ensures db.users == old(db.users) && db.hrProfiles == old(db.hrProfiles) && db.applications == old(db.applications)
    ensures db.applicantProfiles == old(db.applicantProfiles) && db.meetings == old(db.meetings)
    ensures db.resumeVersions == old(db.resumeVersions) && db.interviews == old(db.interviews)
  {
    var k := VacancyIndex(db.vacancies, vacancyId);
    if k.None? {
      return Err(VacancyNotFound);
    }
    r := MergeIntoVacancy(db, k.value, mapped);
  }

  /** The found branch of change_vacancy: the vacancy at `k` takes the parsed document, unless `exp` is rejected. */
  method MergeIntoVacancy(db: Database, k: nat, mapped: seq<(string, Json)>)
    returns (r: Result<VacancyResponse, HrError>)
    requires k < |db.vacancies|
    modifies db
    ensures var merged := MergeMapped(old(db.vacancies)[k].attrs, Getter(mapped));
      merged.error.Some? ==> r == Err(BadExp(merged.error.value)) && db.vacancies == old(db.vacancies)
    ensures var merged := MergeMapped(old(db.vacancies)[k].attrs, Getter(mapped));
      var changed := old(db.vacancies)[k].(attrs := merged.attrs);
      merged.error.None? ==>
        db.vacancies == old(db.vacancies)[k := changed] && r == Ok(VacancyToResponse(changed, AppsOf(db.applications, changed.id)))
    ensures db.users == old(db.users) && db.hrProfiles == old(db.hrProfiles) && db.applications == old(db.applications)
    ensures db.applicantProfiles == old(db.applicantProfiles) && db.meetings == old(db.meetings)
    ensures db.resumeVersions == old(db.resumeVersions) && db.interviews == old(db.interviews)
  {
    var v := new VacancyObject(db.vacancies[k]);
    var error := v.ApplyMapped(mapped);
    if error.Some? {
      return Err(BadExp(error.value));
    }
    var changed := v.Row();
    db.vacancies := db.vacancies[k := changed];
    r := Ok(VacancyToResponse(changed, AppsOf(db.applications, changed.id)));
  }

  /** change_vacancy_status: FileNotFoundError for an unknown id; otherwise only that vacancy's status changes. */
  method ChangeVacancyStatus(db: Database, vacancyId: int, newStatus: string)
    returns (r: Result<string, HrError>)
    modifies db
    ensures VacancyIndex(old(db.vacancies), vacancyId).None? ==> r == Err(VacancyNotFound) && db.vacancies == old(db.vacancies)
    ensures var k := VacancyIndex(old(db.vacancies), vacancyId);
      k.Some? ==>
        r == Ok(newStatus) &&
        db.vacancies == old(db.vacancies)[k.value := old(db.vacancies)[k.value].(attrs := old(db.vacancies)[k.value].attrs[Status := JStr(newStatus)])]
    ensures db.users == old(db.users) && db.hrProfiles == old(db.hrProfiles) && db.applications == old(db.applications)
    ensures db.applicantProfiles == old(db.applicantProfiles) && db.meetings == old(db.meetings)
    ensures db.resumeVersions == old(db.resumeVersions) && db.interviews == old(db.interviews)
  {
    var k := VacancyIndex(db.vacancies, vacancyId);
    if k.None? {
      return Err(VacancyNotFound);
    }
    var v := db.vacancies[k.value];
    db.vacancies := db.vacancies[k.value := v.(attrs := v.attrs[Status := JStr(newStatus)])];
    r := Ok(newStatus);
  }

  // ---- get_vacancy_detail ----

  const DefaultCandidateName := "Кандидат"

  /** `filter(None, [name, surname])`: the parts that are present and non-empty. */
  function NameParts(prof: Option<ApplicantProfileRow>): (r: seq<string>)
    ensures |r| <= 2 && forall i :: 0 <= i < |r| ==> r[i] != ""
  {
    if prof.None? then []
    else
      (if prof.value.name.Some? && prof.value.name.value != "" then [prof.value.name.value] else [])
      + (if prof.value.surname.Some? && prof.value.surname.value != "" then [prof.value.surname.value] else [])
  }

  /** The candidate's name as the detail view shows it. */
  function CandidateName(prof: Option<ApplicantProfileRow>): (r: string)
    ensures r != ""
    ensures r != DefaultCandidateName ==> r == PyStrip(Join(NameParts(prof), " "))
  {
    var full := PyStrip(Join(NameParts(prof), " "));
    if full == "" then DefaultCandidateName else full
  }

  /** Without a profile, or with a blank name and surname, the placeholder is shown. */
  lemma CandidateNamePlaceholder(prof: Option<ApplicantProfileRow>)
    requires prof.Some? ==> (prof.value.name.None? || AllSpace(prof.value.name.value, IsPySpace))
    requires prof.Some? ==> (prof.value.surname.None? || AllSpace(prof.value.surname.value, IsPySpace))
    ensures CandidateName(prof) == DefaultCandidateName
  {
    var parts := NameParts(prof);
    var joined := Join(parts, " ");
    if |parts| == 2 {
      assert Join(parts[1..], " ") == parts[1];
      assert joined == parts[0] + " " + parts[1];
      assert AllSpace(joined, IsPySpace) by {
        forall i | 0 <= i < |joined| ensures IsPySpace(joined[i]) {
          if i < |parts[0]| {
            assert joined[i] == parts[0][i];
          } else if i > |parts[0]| {
            assert joined[i] == parts[1][i - |parts[0]| - 1];
          }
        }
      }
    }
    TrimEmptyIffAllSpace(joined, IsPySpace);
  }

  /** A trimmed name and surname are shown joined by one space. */
  lemma CandidateNameJoined(p: ApplicantProfileRow, name: string, surname: string)
    requires p.name == Some(name) && p.surname == Some(surname) && name != "" && surname != ""
    requires !IsPySpace(name[0]) && !IsPySpace(surname[|surname| - 1])
    ensures CandidateName(Some(p)) == name + " " + surname
  {
    var joined := name + " " + surname;
    assert Join(NameParts(Some(p)), " ") == joined;
    PyStripNoop(joined);
  }

  /** One entry of `detailResponses` (the score is not modelled). */
  datatype DetailEntry = DetailEntry(applicantId: Option<int>, name: string, status: string, checked: bool)

  datatype VacancyDetail = VacancyDetail(base: VacancyResponse, detailResponses: seq<DetailEntry>)

  /** The profile of an application's applicant. */
  function ApplicantProfileOf(profiles: seq<ApplicantProfileRow>, applicantId: Option<int>): (r: Option<ApplicantProfileRow>)
    ensures r.Some? ==> applicantId.Some? && r.value in profiles && r.value.id == applicantId.value
  {
    if applicantId.None? || profiles == [] then None
    else if profiles[0].id == applicantId.value then Some(profiles[0])
    else ApplicantProfileOf(profiles[1..], applicantId)
  }

  /** The entry the detail view shows for one application. */
  function EntryOf(app: ApplicationRow, profiles: seq<ApplicantProfileRow>, meetings: seq<MeetingRow>): (r: DetailEntry)
    ensures !r.checked && r.applicantId == app.applicantId && r.name != ""
    ensures IsCardStatus(r.status)
  {
    DetailEntry(app.applicantId, CandidateName(ApplicantProfileOf(profiles, app.applicantId)),
                MapApplicationStatus(app.status, MeetingsOf(meetings, app.id)), false)
  }

  /** The entries of a list of applications, in order. */
  function Entries(apps: seq<ApplicationRow>, profiles: seq<ApplicantProfileRow>, meetings: seq<MeetingRow>): (r: seq<DetailEntry>)
    ensures |r| == |apps|
  {
    if apps == [] then [] else Entries(apps[..|apps| - 1], profiles, meetings) + [EntryOf(apps[|apps| - 1], profiles, meetings)]
  }

  /** Entry i of the detail list describes application i. */
  lemma {:induction false} EntriesAt(apps: seq<ApplicationRow>, profiles: seq<ApplicantProfileRow>, meetings: seq<MeetingRow>, i: nat)
    requires i < |apps|
    ensures Entries(apps, profiles, meetings)[i] == EntryOf(apps[i], profiles, meetings)
  {
    var init := apps[..|apps| - 1];
    var last := EntryOf(apps[|apps| - 1], profiles, meetings);
    assert Entries(apps, profiles, meetings) == Entries(init, profiles, meetings) + [last];
    if i < |apps| - 1 {
      EntriesAt(init, profiles, meetings, i);
      assert init[i] == apps[i];
    }
  }

  /** The append loop of get_vacancy_detail: one entry per application, in order. */
  method BuildEntries(apps: seq<ApplicationRow>, profiles: seq<ApplicantProfileRow>, meetings: seq<MeetingRow>)
    returns (detail: seq<DetailEntry>)
    ensures detail == Entries(apps, profiles, meetings)
  {
    detail := [];
    for i := 0 to |apps|
      invariant detail == Entries(apps[..i], profiles, meetings)
    {
      assert apps[..i + 1][..i] == apps[..i];
      detail := detail + [EntryOf(apps[i], profiles, meetings)];
    }
    assert apps[..|apps|] == apps;
  }

  /**
   * get_vacancy_detail: FileNotFoundError for an unknown id; otherwise the
   * vacancy's API form and one entry per application, in order.
   */
  method GetVacancyDetail(db: Database, vacancyId: int) returns (r: Result<VacancyDetail, HrError>)
    ensures VacancyIndex(db.vacancies, vacancyId).None? <==> r == Err(VacancyNotFound)
    ensures VacancyIndex(db.vacancies, vacancyId).Some? <==> r.Ok?
    ensures r.Ok? ==> var apps := AppsOf(db.applications, vacancyId);
      var k := VacancyIndex(db.vacancies, vacancyId).value;
      r.value.base == VacancyToResponse(db.vacancies[k], apps)
      && r.value.detailResponses == Entries(apps, db.applicantProfiles, db.meetings)
      && |r.value.detailResponses| == r.value.base.responses
  {
    var k := VacancyIndex(db.vacancies, vacancyId);
    if k.None? {
      return Err(VacancyNotFound);
    }
    var apps := AppsOf(db.applications, vacancyId);
    var base := VacancyToResponse(db.vacancies[k.value], apps);
    var detail := BuildEntries(apps, db.applicantProfiles, db.meetings);
    r := Ok(VacancyDetail(base, detail));
  }
}
