/**
 * The backend's database rows, with every nullable column an Option (or the
 * JSON value JNull), and the database itself as an object whose tables are
 * sequences that the services replace when they commit.
 */
module Db {
  import opened Wrappers
  import opened PyJson

  const HrRole := "hr"
  const ApplicantRole := "applicant"

  /** A user; the password is stored only as its hash. */
  datatype UserRow = UserRow(id: int, email: string, passwordHash: string, role: string)

  datatype HrProfileRow = HrProfileRow(
    id: int, userId: int, name: Option<string>, surname: Option<string>, patronymic: Option<string>,
    department: Option<string>, contacts: Option<string>)

  datatype ApplicantProfileRow = ApplicantProfileRow(
    id: int, userId: int, name: Option<string>, surname: Option<string>, patronymic: Option<string>,
    contacts: Option<string>, cv: Option<string>, summary: Option<string>)

  /** The vacancy columns other than the key, the owner and the date. */
  datatype Column =
    | Name | Status | Department | Region | City | Address | OfferType | BusyType | Graph
    | BonusType | Description | Promt | Exp | Degree | SpecialSoftware | ComputerSkills
    | ForeignLanguages | LanguageLevel | BusinessTrips

  /** The attribute (and dict key) name of a column. */
  function ColumnName(c: Column): string
  {
    match c
    case Name => "name"
    case Status => "status"
    case Department => "department"
    case Region => "region"
    case City => "city"
    case Address => "address"
    case OfferType => "offerType"
    case BusyType => "busyType"
    case Graph => "graph"
    case BonusType => "bonusType"
    case Description => "description"
    case Promt => "promt"
    case Exp => "exp"
    case Degree => "degree"
    case SpecialSoftware => "specialSoftware"
    case ComputerSkills => "computerSkills"
    case ForeignLanguages => "foreignLanguages"
    case LanguageLevel => "languageLevel"
    case BusinessTrips => "businessTrips"
  }

  /** A vacancy: its key, owner and date, and its other columns, each a JSON-like value; an absent one is NULL. */
  datatype VacancyRow = VacancyRow(id: int, hrId: Option<int>, date: Option<int>, attrs: map<Column, Json>)

  /** The column `c` of a vacancy, NULL when it was never set. */
  function Attr(attrs: map<Column, Json>, c: Column): Json
  {
    if c in attrs then attrs[c] else JNull
  }

  /** A job application: vacancy and applicant links, status, contacts and the applicant's name parts. */
  datatype ApplicationRow = ApplicationRow(
    id: int, vacancyId: Option<int>, applicantId: Option<int>, status: Option<string>, contacts: Option<string>)

  /** A meeting; the id is None until the row is flushed. */
  datatype MeetingRow = MeetingRow(
    id: Option<int>, applicationId: int, vacancyId: Option<int>, status: Option<string>,
    hrContact: Option<string>, meetLink: Option<string>, calendarLink: Option<string>)

  datatype ResumeVersionRow = ResumeVersionRow(applicantId: int, storagePath: string, textHash: string, isCurrent: bool)

  datatype InterviewRow = InterviewRow(
    jobApplicationId: int, historyJson: string, feedbackJson: string,
    strengths: seq<string>, weaknesses: seq<string>, verdict: string)

  /** The first element of a table satisfying a condition: `query(...).filter(...).first()`. */
  function FirstUserWith(users: seq<UserRow>, email: string): (r: Option<UserRow>)
    ensures r.Some? ==> r.value in users && r.value.email == email
    ensures r.None? <==> forall i :: 0 <= i < |users| ==> users[i].email != email
  {
    if users == [] then None
    else if users[0].email == email then Some(users[0])
    else FirstUserWith(users[1..], email)
  }

  function FirstUserWithId(users: seq<UserRow>, id: int): (r: Option<UserRow>)
    ensures r.Some? ==> r.value in users && r.value.id == id
    ensures r.None? <==> forall i :: 0 <= i < |users| ==> users[i].id != id
  {
    if users == [] then None
    else if users[0].id == id then Some(users[0])
    else FirstUserWithId(users[1..], id)
  }

  /** The position of the first vacancy with the given key (`db.get`). */
  function VacancyIndex(vs: seq<VacancyRow>, id: int): (r: Option<nat>)
    ensures r.None? <==> forall i :: 0 <= i < |vs| ==> vs[i].id != id
    ensures r.Some? ==> r.value < |vs| && vs[r.value].id == id
    ensures r.Some? ==> forall i :: 0 <= i < r.value ==> vs[i].id != id
  {
    if vs == [] then None
    else if vs[0].id == id then Some(0)
    else match VacancyIndex(vs[1..], id)
      case None => None
      case Some(k) => Some(k + 1)
  }

  /** The position of the first HR profile of a user: `query(HRProfile).filter(user_id == ...).first()`. */
  function HrProfileIndex(profiles: seq<HrProfileRow>, userId: int): (r: Option<nat>)
    ensures r.None? <==> forall i :: 0 <= i < |profiles| ==> profiles[i].userId != userId
    ensures r.Some? ==> r.value < |profiles| && profiles[r.value].userId == userId
    ensures r.Some? ==> forall i :: 0 <= i < r.value ==> profiles[i].userId != userId
  {
    if profiles == [] then None
    else if profiles[0].userId == userId then Some(0)
    else match HrProfileIndex(profiles[1..], userId)
      case None => None
      case Some(k) => Some(k + 1)
  }

  /** The position of the first applicant profile of a user. */
  function ApplicantProfileIndex(profiles: seq<ApplicantProfileRow>, userId: int): (r: Option<nat>)
    ensures r.None? <==> forall i :: 0 <= i < |profiles| ==> profiles[i].userId != userId
    ensures r.Some? ==> r.value < |profiles| && profiles[r.value].userId == userId
    ensures r.Some? ==> forall i :: 0 <= i < r.value ==> profiles[i].userId != userId
  {
    if profiles == [] then None
    else if profiles[0].userId == userId then Some(0)
    else match ApplicantProfileIndex(profiles[1..], userId)
      case None => None
      case Some(k) => Some(k + 1)
  }

  class Database {
    var users: seq<UserRow>
    var hrProfiles: seq<HrProfileRow>
    var applicantProfiles: seq<ApplicantProfileRow>
    var vacancies: seq<VacancyRow>
    var applications: seq<ApplicationRow>
    var meetings: seq<MeetingRow>
    var resumeVersions: seq<ResumeVersionRow>
    var interviews: seq<InterviewRow>

    constructor()
      ensures users == [] && hrProfiles == [] && applicantProfiles == [] && vacancies == []
      ensures applications == [] && meetings == [] && resumeVersions == [] && interviews == []
    {
      users := [];
      hrProfiles := [];
      applicantProfiles := [];
      vacancies := [];
      applications := [];
      meetings := [];
      resumeVersions := [];
      interviews := [];
    }
  }
}
