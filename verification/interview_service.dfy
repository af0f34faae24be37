/**
 * The video-interview backend: the request headers for the VideoSDK API
 * built from the configured token (the `Bearer` scheme of section 2.1 of
 * RFC 6750, the raw token, or an `x-api-key` header), picking the room id
 * out of the room-creation reply, and storing the meeting and the interview
 * results of a job application.
 */
module InterviewService {
  import opened Wrappers
  import opened Seqs
  import opened Strings
  import opened PyJson
  import opened Db
  import opened HrHelpers
  import opened HrService
  import opened ApplicantService

  const TokenNotSet := "VIDEOSDK_AUTH_TOKEN is not set"
  const BearerPrefix := "Bearer "
  const ContentTypeJson := ("Content-Type", "application/json")
  const RoomCreateFailed := "VideoSDK room create failed: "
  const RoomIdMissing := "Failed to obtain roomId from VideoSDK response"
  const PlaygroundPrefix := "https://playground.videosdk.live/?token="
  const ApplicationMissing := "Job application not found"
  const WaitMeeting := "waitMeeting"

  /** The three ways the token is sent. */
  datatype Scheme = BearerAuth | RawAuth | XApiKey

  type HeaderList = seq<(string, string)>

  /** The credential starts with the word "bearer" and a space, in any case. */
  predicate HasBearerPrefix(s: string)
  {
    StartsWith(Lower(s), "bearer ")
  }

  lemma LowerBearerPrefix(t: string)
    ensures Lower(BearerPrefix + t)[..7] == "bearer "
  {
  }

  /** The `Bearer` credential: the stripped token, prefixed unless it already carries the scheme. */
  function BearerCredential(token: string): (r: string)
    ensures HasBearerPrefix(r)
    ensures EndsWith(r, PyStrip(token)) && |r| <= |PyStrip(token)| + |BearerPrefix|
    ensures HasBearerPrefix(PyStrip(token)) ==> r == PyStrip(token)
  {
    var t := PyStrip(token);
    if HasBearerPrefix(t) then t
    else
      LowerBearerPrefix(t);
      BearerPrefix + t
  }

  /** The header name and credential each scheme sends. */
  function HeaderName(s: Scheme): string
  {
    match s
    case XApiKey => "x-api-key"
    case _ => "Authorization"
  }

  /** The credential is the stripped token, behind the bearer prefix for the Bearer scheme. */
  function Credential(s: Scheme, token: string): (r: string)
    ensures EndsWith(r, PyStrip(token))
    ensures s == BearerAuth ==> HasBearerPrefix(r)
    ensures s != BearerAuth ==> r == PyStrip(token)
  {
    match s
    case BearerAuth => BearerCredential(token)
    case _ => PyStrip(token)
  }

  /**
   * `_headers_bearer`, `_headers_raw_auth` and `_headers_x_api_key` as
   * written: an empty token is refused, but the check looks at the token
   * before it is stripped.
   */
  function HeadersAsWritten(s: Scheme, token: string): (r: Result<HeaderList, string>)
    ensures r.Err? <==> token == ""
    ensures r.Err? ==> r.error == TokenNotSet
    ensures r.Ok? ==> r.value == [(HeaderName(s), Credential(s, token)), ContentTypeJson]
  {
    if token == "" then Err(TokenNotSet)
    else Ok([(HeaderName(s), Credential(s, token)), ContentTypeJson])
  }

  /** A token made only of whitespace passes the check as written and sends an empty credential. */
  lemma BlankTokenAccepted(token: string)
    requires token != "" && AllSpace(token, IsPySpace)
    ensures HeadersAsWritten(RawAuth, token) == Ok([("Authorization", ""), ContentTypeJson])
    ensures HeadersAsWritten(XApiKey, token) == Ok([("x-api-key", ""), ContentTypeJson])
    ensures HeadersAsWritten(BearerAuth, token) == Ok([("Authorization", BearerPrefix), ContentTypeJson])
  {
    TrimEmptyIffAllSpace(token, IsPySpace);
    assert !HasBearerPrefix("");
    assert BearerPrefix + "" == BearerPrefix;
  }

  /** The header builders with the emptiness check on the stripped token, as intended. */
  function Headers(s: Scheme, token: string): (r: Result<HeaderList, string>)
    ensures r.Err? <==> PyStrip(token) == ""
    ensures r.Err? ==> r.error == TokenNotSet
    ensures r.Ok? ==> |r.value| == 2 && r.value[0].0 == HeaderName(s) && r.value[1] == ContentTypeJson
    ensures r.Ok? ==> r.value[0].1 != "" && EndsWith(r.value[0].1, PyStrip(token))
    ensures r.Ok? && s == BearerAuth ==> HasBearerPrefix(r.value[0].1)
    ensures r.Ok? && s != BearerAuth ==> r.value[0].1 == PyStrip(token)
  {
    if PyStrip(token) == "" then Err(TokenNotSet)
    else Ok([(HeaderName(s), Credential(s, token)), ContentTypeJson])
  }

  /** The builders differ only on tokens made of whitespace, which only the corrected ones refuse. */
  lemma HeadersAgreeOnRealTokens(s: Scheme, token: string)
    ensures PyStrip(token) != "" ==> Headers(s, token) == HeadersAsWritten(s, token)
    ensures PyStrip(token) == "" <==> AllSpace(token, IsPySpace)
  {
    TrimEmptyIffAllSpace(token, IsPySpace);
  }

  /** The scheme is never doubled: building a bearer credential from one gives it back. */
  lemma BearerIdempotent(token: string)
    requires PyStrip(token) != ""
    ensures BearerCredential(BearerCredential(token)) == BearerCredential(token)
  {
    CredentialStripped(token);
    BearerFixed(BearerCredential(token));
  }

  /** The bearer credential has no surrounding whitespace. */
  lemma CredentialStripped(token: string)
    requires PyStrip(token) != ""
    ensures PyStrip(BearerCredential(token)) == BearerCredential(token)
  {
    var t := PyStrip(token);
    CredentialShape(token);
    TrimEnds(token, IsPySpace);
    if BearerCredential(token) == t {
      PyStripNoop(t);
    } else {
      PrefixedStripped(t);
    }
  }

  /** The credential is the stripped token, with or without the scheme in front. */
  lemma CredentialShape(token: string)
    ensures BearerCredential(token) == PyStrip(token) || BearerCredential(token) == BearerPrefix + PyStrip(token)
  {
  }

  /** A stripped credential that already carries the scheme is sent as it is. */
  lemma BearerFixed(c: string)
    requires PyStrip(c) == c && HasBearerPrefix(c)
    ensures BearerCredential(c) == c
  {
  }

  /** Prefixing the scheme to a stripped token leaves nothing to strip. */
  lemma PrefixedStripped(t: string)
    requires t != [] && !IsPySpace(t[|t| - 1])
    ensures PyStrip(BearerPrefix + t) == BearerPrefix + t
  {
    var c := BearerPrefix + t;
    assert c[0] == 'B';
    assert c[|c| - 1] == t[|t| - 1];
    PyStripNoop(c);
  }

  /** The room id: the first truthy of `roomId`, `id` and `room_id` (Python's `or` chain), else an error. */
  function RoomId(data: seq<(string, Json)>): (r: Result<Json, string>)
    ensures r.Ok? ==> Truthy(r.value)
    ensures Truthy(GetOr(data, "roomId", JNull)) ==> r == Ok(GetOr(data, "roomId", JNull))
    ensures !Truthy(GetOr(data, "roomId", JNull)) && Truthy(GetOr(data, "id", JNull)) ==> r == Ok(GetOr(data, "id", JNull))
    ensures !Truthy(GetOr(data, "roomId", JNull)) && !Truthy(GetOr(data, "id", JNull)) ==>
      (if Truthy(GetOr(data, "room_id", JNull)) then r == Ok(GetOr(data, "room_id", JNull)) else r == Err(RoomIdMissing))
  {
    var v := OrElse(OrElse(GetOr(data, "roomId", JNull), GetOr(data, "id", JNull)), GetOr(data, "room_id", JNull));
    if !Truthy(v) then Err(RoomIdMissing) else Ok(v)
  }

  /** A reply that names the room under `roomId` is used as it is, whatever the other keys say. */
  lemma RoomIdPrefersRoomId(rest: seq<(string, Json)>, id: string)
    requires id != ""
    ensures RoomId([("roomId", JStr(id))] + rest) == Ok(JStr(id))
  {
    assert Get([("roomId", JStr(id))] + rest, "roomId") == Some(JStr(id));
  }

  /**
   * create_videosdk_room: the headers are built inside the request's `try`,
   * so a missing token and a failed request both become "room create
   * failed"; then the room id and the playground join link with the raw token.
   * The header builder is the one as written, so only the empty token is
   * refused here and a token of blanks goes out with an empty credential.
   */
  function CreateRoom(token: string, reply: Result<seq<(string, Json)>, string>): (r: Result<(Json, string), string>)
    ensures token == "" ==> r == Err(RoomCreateFailed + TokenNotSet)
    ensures token != "" && reply.Err? ==> r == Err(RoomCreateFailed + reply.error)
    ensures token != "" && reply.Ok? ==> (r.Ok? <==> RoomId(reply.value).Ok?)
    ensures r.Ok? ==> r.value.0 == RoomId(reply.value).value && Truthy(r.value.0)
    ensures r.Ok? ==> StartsWith(r.value.1, PlaygroundPrefix + token + "&meetingId=") && EndsWith(r.value.1, Str(r.value.0))
  {
    match HeadersAsWritten(RawAuth, token)
    case Err(e) => Err(RoomCreateFailed + e)
    case Ok(_) =>
      match reply
      case Err(e) => Err(RoomCreateFailed + e)
      case Ok(data) =>
        match RoomId(data)
        case Err(e) => Err(e)
        case Ok(id) => Ok((id, PlaygroundPrefix + token + "&meetingId=" + Str(id)))
  }

  /** The job application with a key (`filter_by(id=...).first()`). */
  function ApplicationById(apps: seq<ApplicationRow>, id: int): (r: Option<ApplicationRow>)
    ensures r.None? <==> forall i :: 0 <= i < |apps| ==> apps[i].id != id
    ensures r.Some? ==> r.value in apps && r.value.id == id
  {
    if apps == [] then None
    else if apps[0].id == id then Some(apps[0])
    else ApplicationById(apps[1..], id)
  }

  /** The meeting stored for an application: waiting, with the join link, linked to the application's vacancy. */
  function NewMeeting(app: ApplicationRow, joinLink: string, newId: int): (r: MeetingRow)
    ensures r.applicationId == app.id && r.vacancyId == app.vacancyId && r.id == Some(newId)
    ensures r.status == Some(WaitMeeting) && r.meetLink == Some(joinLink)
    ensures r.hrContact == Some("") && r.calendarLink == Some("")
  {
    MeetingRow(Some(newId), app.id, app.vacancyId, Some(WaitMeeting), Some(""), Some(joinLink), Some(""))
  }

  /** persist_meeting_for_application: an unknown application is refused; otherwise one meeting is added. */
  method PersistMeeting(db: Database, applicationId: int, joinLink: string, newId: int) returns (r: Result<MeetingRow, string>)
    modifies db
    ensures ApplicationById(old(db.applications), applicationId).None? <==> r.Err?
    ensures r.Err? ==> r.error == ApplicationMissing && db.meetings == old(db.meetings)
    ensures r.Ok? ==>
      r.value == NewMeeting(ApplicationById(old(db.applications), applicationId).value, joinLink, newId) &&
      db.meetings == old(db.meetings) + [r.value]
    ensures db.applications == old(db.applications) && db.vacancies == old(db.vacancies) && db.users == old(db.users)
    ensures db.interviews == old(db.interviews) && db.hrProfiles == old(db.hrProfiles)
    ensures db.applicantProfiles == old(db.applicantProfiles) && db.resumeVersions == old(db.resumeVersions)
  {
    var app := ApplicationById(db.applications, applicationId);
    if app.None? {
      return Err(ApplicationMissing);
    }
    var m := NewMeeting(app.value, joinLink, newId);
    db.meetings := db.meetings + [m];
    r := Ok(m);
  }

  /**
   * The applicant sees a persisted meeting: when it is the application's
   * first, the status view shows it waiting with its join link.
   */
  lemma PersistedMeetingShownToApplicant(apps: seq<ApplicationRow>, meetings: seq<MeetingRow>, vs: seq<VacancyRow>,
                                         applicantId: int, vacancyId: int, joinLink: string, newId: int)
    requires FirstApplication(apps, applicantId, vacancyId).Some?
    requires FirstMeeting(meetings, FirstApplication(apps, applicantId, vacancyId).value.id).None?
    ensures var m := NewMeeting(FirstApplication(apps, applicantId, vacancyId).value, joinLink, newId);
      var shown := GetApplicationStatus(apps, meetings + [m], vs, applicantId, vacancyId);
      shown.Some? && shown.value.status == Some(WaitMeeting) && shown.value.meetLink == Some(joinLink)
  {
    var app := FirstApplication(apps, applicantId, vacancyId).value;
    var m := NewMeeting(app, joinLink, newId);
    var first := FirstMeeting(meetings + [m], app.id);
    assert (meetings + [m])[|meetings|] == m;
    assert first.value == m;
  }

  /** HR sees a persisted meeting with a key above all others as an interview in progress. */
  lemma PersistedMeetingShownToHr(status: Option<string>, meetings: seq<MeetingRow>, app: ApplicationRow,
                                  joinLink: string, newId: int)
    requires forall j :: 0 <= j < |meetings| ==> MeetingKey(meetings[j]) < newId
    ensures MapApplicationStatus(status, MeetingsOf(meetings + [NewMeeting(app, joinLink, newId)], app.id)) == "interview"
  {
    var m := NewMeeting(app, joinLink, newId);
    var mine := MeetingsOf(meetings, app.id);
    assert MeetingsOf(meetings + [m], app.id) == mine + [m] by {
      MeetingsOfSnoc(meetings, m, app.id);
    }
    assert forall j :: 0 <= j < |mine| ==> MeetingKey(mine[j]) < MeetingKey(m) by {
      forall j | 0 <= j < |mine| ensures MeetingKey(mine[j]) < MeetingKey(m) {
        assert mine[j] in meetings;
      }
    }
    NewestMeetingDecides(status, mine, m);
    WaitMeetingIsInterview();
  }

  /** The status a new meeting is stored with reads as an interview in progress. */
  lemma WaitMeetingIsInterview()
    ensures FromMeetingStatus(StrippedText(Some(WaitMeeting))) == "interview"
  {
    assert StrippedText(Some(WaitMeeting)) == WaitMeeting by {
      PyStripNoop(WaitMeeting);
    }
    assert FromMeetingStatus(WaitMeeting) == "interview";
  }

  /** save_interview_results: an unknown application is refused; the history is stored as "{}". */
  method SaveInterviewResults(db: Database, applicationId: int, summary: string, strengths: seq<string>,
                              weaknesses: seq<string>, recommendations: string, verdict: string)
    returns (r: Result<InterviewRow, string>)
    modifies db
    ensures ApplicationById(old(db.applications), applicationId).None? <==> r.Err?
    ensures r.Err? ==> r.error == ApplicationMissing && db.interviews == old(db.interviews)
    ensures r.Ok? ==>
      r.value == InterviewRow(applicationId, "{}", recommendations, strengths, weaknesses, verdict) &&
      db.interviews == old(db.interviews) + [r.value]
    ensures db.applications == old(db.applications) && db.meetings == old(db.meetings) && db.users == old(db.users)
    ensures db.vacancies == old(db.vacancies) && db.hrProfiles == old(db.hrProfiles)
    ensures db.applicantProfiles == old(db.applicantProfiles) && db.resumeVersions == old(db.resumeVersions)
  {
    var app := ApplicationById(db.applications, applicationId);
    if app.None? {
      return Err(ApplicationMissing);
    }
    var row := InterviewRow(app.value.id, "{}", recommendations, strengths, weaknesses, verdict);
    db.interviews := db.interviews + [row];
    r := Ok(row);
  }
}
