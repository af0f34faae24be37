/**
 * The applicant's read-only views: the status of their application to one
 * vacancy (with the meeting's details when a meeting exists), and the list
 * of all their applications.
 */
module ApplicantService {
  import opened Wrappers
  import opened Seqs
  import opened PyJson
  import opened Db

  const Unknown := "Unknown"

  /** The first application of an applicant to a vacancy (`filter_by(...).first()`); NULL links never match. */
  function FirstApplication(apps: seq<ApplicationRow>, applicantId: int, vacancyId: int): (r: Option<ApplicationRow>)
    ensures r.None? <==> forall i :: 0 <= i < |apps| ==> apps[i].applicantId != Some(applicantId) || apps[i].vacancyId != Some(vacancyId)
    ensures r.Some? ==> r.value in apps && r.value.applicantId == Some(applicantId) && r.value.vacancyId == Some(vacancyId)
  {
    if apps == [] then None
    else if apps[0].applicantId == Some(applicantId) && apps[0].vacancyId == Some(vacancyId) then Some(apps[0])
    else FirstApplication(apps[1..], applicantId, vacancyId)
  }

  /** The first meeting of an application. */
  function FirstMeeting(meetings: seq<MeetingRow>, applicationId: int): (r: Option<MeetingRow>)
    ensures r.None? <==> forall i :: 0 <= i < |meetings| ==> meetings[i].applicationId != applicationId
    ensures r.Some? ==> r.value in meetings && r.value.applicationId == applicationId
  {
    if meetings == [] then None
    else if meetings[0].applicationId == applicationId then Some(meetings[0])
    else FirstMeeting(meetings[1..], applicationId)
  }

  /** The vacancy a link points to, if the row exists (the `vacancy` relationship). */
  function VacancyOf(vs: seq<VacancyRow>, vacancyId: Option<int>): (r: Option<VacancyRow>)
    ensures r.Some? <==> vacancyId.Some? && VacancyIndex(vs, vacancyId.value).Some?
    ensures r.Some? ==> r.value in vs && r.value.id == vacancyId.value
  {
    if vacancyId.None? then None
    else match VacancyIndex(vs, vacancyId.value)
      case None => None
      case Some(k) => Some(vs[k])
  }

  /** The status reply; `vacancyData` is None for the empty object `{}`, otherwise the id and the name. */
  datatype StatusReply = StatusReply(
    vacancyData: Option<(int, Json)>, status: Option<string>, hrContact: Option<string>,
    meetLink: Option<string>, calendarLink: Option<string>)

  /**
   * get_application_status: None without an application; otherwise the
   * vacancy's id and name (or nothing when it is gone) and the details of
   * the application's first meeting, all None when there is no meeting.
   */
  function GetApplicationStatus(apps: seq<ApplicationRow>, meetings: seq<MeetingRow>, vs: seq<VacancyRow>,
                                applicantId: int, vacancyId: int): (r: Option<StatusReply>)
    ensures r.None? <==> FirstApplication(apps, applicantId, vacancyId).None?
    ensures r.Some? ==> (r.value.vacancyData.Some? <==> VacancyIndex(vs, vacancyId).Some?)
    ensures r.Some? && r.value.vacancyData.Some? ==>
      r.value.vacancyData.value == (vacancyId, Attr(vs[VacancyIndex(vs, vacancyId).value].attrs, Name))
    ensures r.Some? && FirstMeeting(meetings, FirstApplication(apps, applicantId, vacancyId).value.id).None? ==>
      r.value.status.None? && r.value.hrContact.None? && r.value.meetLink.None? && r.value.calendarLink.None?
    ensures r.Some? && FirstMeeting(meetings, FirstApplication(apps, applicantId, vacancyId).value.id).Some? ==>
      var m := FirstMeeting(meetings, FirstApplication(apps, applicantId, vacancyId).value.id).value;
      r.value.status == m.status && r.value.hrContact == m.hrContact &&
      r.value.meetLink == m.meetLink && r.value.calendarLink == m.calendarLink
  {
    match FirstApplication(apps, applicantId, vacancyId)
    case None => None
    case Some(app) =>
      var meeting := FirstMeeting(meetings, app.id);
      var vacancy := VacancyOf(vs, Some(vacancyId));
      Some(StatusReply(
        if vacancy.Some? then Some((vacancy.value.id, Attr(vacancy.value.attrs, Name))) else None,
        if meeting.Some? then meeting.value.status else None,
        if meeting.Some? then meeting.value.hrContact else None,
        if meeting.Some? then meeting.value.meetLink else None,
        if meeting.Some? then meeting.value.calendarLink else None))
  }

  /** One entry of the application list. */
  datatype ApplicationEntry = ApplicationEntry(
    status: Option<string>, vacancyId: Option<int>, name: Json, tribe: Json, otherInfo: Option<string>)

  /** The entry of one application: "Unknown" name and tribe when it has no vacancy. */
  function EntryOf(a: ApplicationRow, vs: seq<VacancyRow>): (r: ApplicationEntry)
    ensures r.status == a.status && r.vacancyId == a.vacancyId && r.otherInfo == a.contacts
    ensures VacancyOf(vs, a.vacancyId).None? ==> r.name == JStr(Unknown) && r.tribe == JStr(Unknown)
    ensures VacancyOf(vs, a.vacancyId).Some? ==>
      r.name == Attr(VacancyOf(vs, a.vacancyId).value.attrs, Name) &&
      r.tribe == Attr(VacancyOf(vs, a.vacancyId).value.attrs, Department)
  {
    match VacancyOf(vs, a.vacancyId)
    case None => ApplicationEntry(a.status, a.vacancyId, JStr(Unknown), JStr(Unknown), a.contacts)
    case Some(v) => ApplicationEntry(a.status, a.vacancyId, Attr(v.attrs, Name), Attr(v.attrs, Department), a.contacts)
  }

  /** Whether an application belongs to an applicant. */
  function BelongsTo(applicantId: int): ApplicationRow -> bool
  {
    (a: ApplicationRow) => a.applicantId == Some(applicantId)
  }

  /** get_applicant_applications: one entry per application of the applicant, in table order. */
  function GetApplicantApplications(apps: seq<ApplicationRow>, vs: seq<VacancyRow>, applicantId: int)
    : (r: seq<ApplicationEntry>)
    ensures |r| == |Filter(apps, BelongsTo(applicantId))|
    ensures forall i :: 0 <= i < |r| ==> r[i] == EntryOf(Filter(apps, BelongsTo(applicantId))[i], vs)
  {
    var mine := Filter(apps, BelongsTo(applicantId));
    seq(|mine|, i requires 0 <= i < |mine| => EntryOf(mine[i], vs))
  }

  /** How many applications an applicant has. */
  function CountOf(apps: seq<ApplicationRow>, applicantId: int): nat
  {
    if apps == [] then 0
    else (if apps[0].applicantId == Some(applicantId) then 1 else 0) + CountOf(apps[1..], applicantId)
  }

  /** The applications kept by the filter are exactly as many as the applicant has. */
  lemma {:induction false} FilterCounts(apps: seq<ApplicationRow>, applicantId: int)
    ensures |Filter(apps, BelongsTo(applicantId))| == CountOf(apps, applicantId)
  {
    if apps != [] {
      FilterCounts(apps[1..], applicantId);
    }
  }

  /**
   * The list has one entry per application of the applicant, and an
   * applicant with no application gets an empty list.
   */
  lemma ApplicationsOnePerApplication(apps: seq<ApplicationRow>, vs: seq<VacancyRow>, applicantId: int)
    ensures |GetApplicantApplications(apps, vs, applicantId)| == CountOf(apps, applicantId)
    ensures CountOf(apps, applicantId) == 0 <==> forall i :: 0 <= i < |apps| ==> apps[i].applicantId != Some(applicantId)
  {
    FilterCounts(apps, applicantId);
    CountZero(apps, applicantId);
  }

  lemma {:induction false} CountZero(apps: seq<ApplicationRow>, applicantId: int)
    ensures CountOf(apps, applicantId) == 0 <==> forall i :: 0 <= i < |apps| ==> apps[i].applicantId != Some(applicantId)
  {
    if apps != [] {
      CountZero(apps[1..], applicantId);
      assert forall i :: 1 <= i < |apps| ==> apps[i] == apps[1..][i - 1];
    }
  }

  /** An application to a vacancy that the status view finds is one the list shows. */
  lemma StatusApplicationListed(apps: seq<ApplicationRow>, meetings: seq<MeetingRow>, vs: seq<VacancyRow>,
                                applicantId: int, vacancyId: int)
    requires GetApplicationStatus(apps, meetings, vs, applicantId, vacancyId).Some?
    ensures var listed := GetApplicantApplications(apps, vs, applicantId);
      exists i :: 0 <= i < |listed| && listed[i].vacancyId == Some(vacancyId)
  {
    var app := FirstApplication(apps, applicantId, vacancyId).value;
    var mine := Filter(apps, BelongsTo(applicantId));
    assert BelongsTo(applicantId)(app);
    var k :| 0 <= k < |apps| && apps[k] == app;
    assert app in mine;
    var i :| 0 <= i < |mine| && mine[i] == app;
    assert GetApplicantApplications(apps, vs, applicantId)[i].vacancyId == Some(vacancyId);
  }
}
