/**
 * The HR vacancy endpoints: every endpoint first requires an HR user (401
 * from authentication, 403 from the role), then validates its query, then
 * calls the service and turns the service's exceptions into HTTP statuses.
 */
module HrRouter {
  import opened Wrappers
  import opened PyJson
  import opened Http
  import opened Db
  import opened Security
  import opened HrHelpers
  import opened HrService

  const DefaultOffset := 0
  const DefaultLimit := 20
  const MaxLimit := 200
  const VacancyNotFoundDetail := "Vacancy not found"
  const StatusFailurePrefix := "Failed to change vacancy status: "

  /** The query of the list endpoint: offset >= 0 (default 0) and 1 <= limit <= 200 (default 20), else 422. */
  function ListQuery(offset: Option<int>, limit: Option<int>): (r: Result<(nat, nat), HttpError>)
    ensures r.Ok? <==> offset.GetOr(DefaultOffset) >= 0 && 1 <= limit.GetOr(DefaultLimit) <= MaxLimit
    ensures r.Ok? ==> r.value.0 == offset.GetOr(DefaultOffset) && r.value.1 == limit.GetOr(DefaultLimit)
    ensures r.Err? ==> r.error.status == UnprocessableEntity
  {
    var o := offset.GetOr(DefaultOffset);
    var l := limit.GetOr(DefaultLimit);
    if o < 0 || l < 1 || l > MaxLimit then Err(HttpError(UnprocessableEntity, "query validation failed"))
    else Ok((o, l))
  }

  /** GET /vacancies: an HR user gets at most `limit` vacancies in listing order from `offset` on. */
  function ListVacanciesEndpoint(d: Decoded, users: seq<UserRow>, offset: Option<int>, limit: Option<int>,
                                 vs: seq<VacancyRow>, apps: seq<ApplicationRow>): (r: Reply<seq<VacancyResponse>>)
    ensures CurrentHrUser(d, users).Err? ==> r == Failure(CurrentHrUser(d, users).error)
    ensures CurrentHrUser(d, users).Ok? ==> (r.Reply? <==> ListQuery(offset, limit).Ok?)
    ensures CurrentHrUser(d, users).Ok? && ListQuery(offset, limit).Err? ==> r.error.status == UnprocessableEntity
    ensures r.Reply? ==> r.status == Http.Ok && 0 <= |r.body| <= limit.GetOr(DefaultLimit) <= MaxLimit
    ensures r.Reply? ==> r.body == GetVacancies(vs, apps, offset.GetOr(DefaultOffset), limit.GetOr(DefaultLimit))
  {
    match CurrentHrUser(d, users)
    case Err(e) => Failure(e)
    case Ok(_) =>
      match ListQuery(offset, limit)
      case Err(e) => Failure(e)
      case Ok((o, l)) => Reply(Http.Ok, GetVacancies(vs, apps, o, l))
  }

  /** The exception classes the handlers tell apart. */
  predicate IsValueError(e: HrError)
  {
    e.NoHrProfile? || e == BadExp(ValueError)
  }

  /** str(e) of the exception (the offending value in int()'s message is not modelled). */
  function ExceptionText(e: HrError): string
  {
    match e
    case NoHrProfile => NoHrProfileMessage
    case BadExp(ValueError) => "invalid literal for int() with base 10"
    case BadExp(TypeError) => "int() argument must be a string, a bytes-like object or a real number"
    case VacancyNotFound => "vacancy not found"
  }

  /** POST /vacancies: ValueError is 400, any other exception 500. */
  function CreateError(e: HrError): (r: HttpError)
    ensures IsValueError(e) ==> r.status == BadRequest
    ensures !IsValueError(e) ==> r.status == InternalServerError
    ensures r.detail == ExceptionText(e)
  {
    HttpError(if IsValueError(e) then BadRequest else InternalServerError, ExceptionText(e))
  }

  /** PUT /vacancies/{id}: FileNotFoundError is 404, ValueError 400, any other exception 500. */
  function ChangeError(e: HrError): (r: HttpError)
    ensures e.VacancyNotFound? <==> r == HttpError(NotFound, VacancyNotFoundDetail)
    ensures IsValueError(e) ==> r == HttpError(BadRequest, ExceptionText(e))
    ensures !e.VacancyNotFound? && !IsValueError(e) ==> r == HttpError(InternalServerError, ExceptionText(e))
  {
    if e.VacancyNotFound? then HttpError(NotFound, VacancyNotFoundDetail)
    else if IsValueError(e) then HttpError(BadRequest, ExceptionText(e))
    else HttpError(InternalServerError, ExceptionText(e))
  }

  /** PUT /vacancies/{id}/status: as the update, but a 500 says that the status change failed. */
  function StatusError(e: HrError): (r: HttpError)
    ensures e.VacancyNotFound? <==> r == HttpError(NotFound, VacancyNotFoundDetail)
    ensures IsValueError(e) ==> r == HttpError(BadRequest, ExceptionText(e))
    ensures !e.VacancyNotFound? && !IsValueError(e) ==>
      r == HttpError(InternalServerError, StatusFailurePrefix + ExceptionText(e))
  {
    if e.VacancyNotFound? then HttpError(NotFound, VacancyNotFoundDetail)
    else if IsValueError(e) then HttpError(BadRequest, ExceptionText(e))
    else HttpError(InternalServerError, StatusFailurePrefix + ExceptionText(e))
  }

  /** The update and status handlers agree on every status code; only a 500's detail differs. */
  lemma ChangeAndStatusAgree(e: HrError)
    ensures ChangeError(e).status == StatusError(e).status
    ensures ChangeError(e).status in {BadRequest, NotFound, InternalServerError}
    ensures CreateError(e).status in {BadRequest, InternalServerError}
  {
  }

  /** An exception raised by int() on `exp` is a 400 when it is a ValueError and a 500 when it is a TypeError. */
  lemma ExpErrorsSplit()
    ensures CreateError(BadExp(ValueError)).status == BadRequest && ChangeError(BadExp(ValueError)).status == BadRequest
    ensures CreateError(BadExp(TypeError)).status == InternalServerError
    ensures ChangeError(BadExp(TypeError)).status == InternalServerError
  {
  }

  /**
   * POST /vacancies: an HR user's vacancy is created (201); a failure stores
   * nothing. Without an HR user the service is never reached.
   */
  method CreateVacancyEndpoint(db: Database, d: Decoded, mapped: seq<(string, Json)>, now: int, newId: int)
    returns (r: Reply<VacancyResponse>)
    modifies db
    ensures CurrentHrUser(d, old(db.users)).Err? ==>
      r == Failure(CurrentHrUser(d, old(db.users)).error) && db.vacancies == old(db.vacancies)
    ensures r.Failure? ==> db.vacancies == old(db.vacancies)
    ensures r.Failure? ==> r.error.status in {Unauthorized, Forbidden, BadRequest, InternalServerError}
    ensures r.Reply? ==>
      r.status == Created && |db.vacancies| == |old(db.vacancies)| + 1 && db.vacancies[..|old(db.vacancies)|] == old(db.vacancies)
    ensures r.Reply? ==> db.vacancies[|old(db.vacancies)|].id == newId && r.body.vacancyId == newId
    ensures db.users == old(db.users) && db.applications == old(db.applications)
  {
    var auth := CurrentHrUser(d, db.users);
    if auth.Err? {
      return Failure(auth.error);
    }
    var res := CreateVacancy(db, auth.value, mapped, now, newId);
    if res.Err? {
      return Failure(CreateError(res.error));
    }
    r := Reply(Created, res.value);
  }

  /** PUT /vacancies/{id}: only the vacancy with that id changes, and only on success. */
  method ChangeVacancyEndpoint(db: Database, d: Decoded, vacancyId: int, mapped: seq<(string, Json)>)
    returns (r: Reply<VacancyResponse>)
    modifies db
    ensures CurrentHrUser(d, old(db.users)).Err? ==>
      r == Failure(CurrentHrUser(d, old(db.users)).error) && db.vacancies == old(db.vacancies)
    ensures CurrentHrUser(d, old(db.users)).Ok? && VacancyIndex(old(db.vacancies), vacancyId).None? ==>
      r == Failure(HttpError(NotFound, VacancyNotFoundDetail))
    ensures r.Failure? ==> db.vacancies == old(db.vacancies)
    ensures r.Reply? ==> r.status == Http.Ok && r.body.vacancyId == vacancyId && |db.vacancies| == |old(db.vacancies)|
    ensures forall i :: 0 <= i < |old(db.vacancies)| && old(db.vacancies)[i].id != vacancyId ==> db.vacancies[i] == old(db.vacancies)[i]
    ensures db.users == old(db.users) && db.applications == old(db.applications)
  {
    var auth := CurrentHrUser(d, db.users);
    if auth.Err? {
      return Failure(auth.error);
    }
    var res := ChangeVacancy(db, vacancyId, mapped);
    if res.Err? {
      return Failure(ChangeError(res.error));
    }
    r := Reply(Http.Ok, res.value);
  }

  /** PUT /vacancies/{id}/status: the reply echoes the new status, which only that vacancy takes. */
  method ChangeVacancyStatusEndpoint(db: Database, d: Decoded, vacancyId: int, newStatus: string)
    returns (r: Reply<string>)
    modifies db
    ensures CurrentHrUser(d, old(db.users)).Err? ==>
      r == Failure(CurrentHrUser(d, old(db.users)).error) && db.vacancies == old(db.vacancies)
    ensures CurrentHrUser(d, old(db.users)).Ok? ==>
      match VacancyIndex(old(db.vacancies), vacancyId)
      case None => r == Failure(HttpError(NotFound, VacancyNotFoundDetail)) && db.vacancies == old(db.vacancies)
      case Some(k) =>
        r == Reply(Http.Ok, newStatus) && |db.vacancies| == |old(db.vacancies)| &&
        Attr(db.vacancies[k].attrs, Status) == JStr(newStatus)
    ensures forall i :: 0 <= i < |old(db.vacancies)| && old(db.vacancies)[i].id != vacancyId ==> db.vacancies[i] == old(db.vacancies)[i]
    ensures db.users == old(db.users) && db.applications == old(db.applications)
  {
    var auth := CurrentHrUser(d, db.users);
    if auth.Err? {
      return Failure(auth.error);
    }
    var res := ChangeVacancyStatus(db, vacancyId, newStatus);
    if res.Err? {
      return Failure(StatusError(res.error));
    }
    r := Reply(Http.Ok, res.value);
  }

  /** GET /vacancies/{id}: 404 exactly when no vacancy has the id. */
  method VacancyDetailEndpoint(db: Database, d: Decoded, vacancyId: int) returns (r: Reply<VacancyDetail>)
    ensures CurrentHrUser(d, db.users).Err? ==> r == Failure(CurrentHrUser(d, db.users).error)
    ensures CurrentHrUser(d, db.users).Ok? ==>
      (r == Failure(HttpError(NotFound, VacancyNotFoundDetail)) <==> VacancyIndex(db.vacancies, vacancyId).None?)
    ensures r.Reply? ==> r.status == Http.Ok && r.body.base.vacancyId == vacancyId
    ensures r.Reply? ==> |r.body.detailResponses| == r.body.base.responses
  {
    var auth := CurrentHrUser(d, db.users);
    if auth.Err? {
      return Failure(auth.error);
    }
    var res := GetVacancyDetail(db, vacancyId);
    if res.Err? {
      return Failure(HttpError(NotFound, VacancyNotFoundDetail));
    }
    r := Reply(Http.Ok, res.value);
  }
}
