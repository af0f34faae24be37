/**
 * The status conversions of two schema migrations: the CASE expressions that
 * rewrite a status column's text when its enum type changes, in both
 * directions. A NULL column reaches the ELSE branch of each CASE.
 */
module Migrations {
  import opened Wrappers

  // ---- 01c970b3edd6: job application and meeting statuses ----

  /** The labels of the application status enum before and after the migration. */
  predicate IsOldApplicationLabel(s: string)
  {
    s == "review" || s == "screening" || s == "result" || s == "reject" || s == "approve"
  }

  predicate IsApplicationLabel(s: string)
  {
    s == "cvReview" || s == "interview" || s == "waitResult" || s == "rejected" || s == "approved"
  }

  /**
   * The upgrade of a job application status (the same CASE serves the
   * applications and their events): each old label has its new one, anything
   * else becomes NULL.
   */
  function UpgradeApplicationStatus(t: Option<string>): (r: Option<string>)
    ensures r.Some? ==> IsApplicationLabel(r.value)
    ensures r.None? <==> t.None? || !IsOldApplicationLabel(t.value)
  {
    match t
    case None => None
    case Some(s) =>
      if s == "review" then Some("cvReview")
      else if s == "screening" then Some("interview")
      else if s == "result" then Some("waitResult")
      else if s == "reject" then Some("rejected")
      else if s == "approve" then Some("approved")
      else None
  }

  /** The downgrade: the inverse label map, anything else NULL. */
  function DowngradeApplicationStatus(t: Option<string>): (r: Option<string>)
    ensures r.Some? ==> IsOldApplicationLabel(r.value)
    ensures r.None? <==> t.None? || !IsApplicationLabel(t.value)
  {
    match t
    case None => None
    case Some(s) =>
      if s == "cvReview" then Some("review")
      else if s == "interview" then Some("screening")
      else if s == "waitResult" then Some("result")
      else if s == "rejected" then Some("reject")
      else if s == "approved" then Some("approve")
      else None
  }

  /** Downgrading an upgraded status gives it back, and so does the other order: the maps are inverse bijections. */
  lemma ApplicationStatusRoundTrip(t: Option<string>)
    ensures t.Some? && IsOldApplicationLabel(t.value) ==> DowngradeApplicationStatus(UpgradeApplicationStatus(t)) == t
    ensures t.Some? && IsApplicationLabel(t.value) ==> UpgradeApplicationStatus(DowngradeApplicationStatus(t)) == t
    ensures DowngradeApplicationStatus(UpgradeApplicationStatus(None)) == None
  {
  }

  /** Distinct old statuses stay distinct. */
  lemma ApplicationUpgradeInjective(a: string, b: string)
    requires IsOldApplicationLabel(a) && IsOldApplicationLabel(b)
    requires UpgradeApplicationStatus(Some(a)) == UpgradeApplicationStatus(Some(b))
    ensures a == b
  {
    ApplicationStatusRoundTrip(Some(a));
    ApplicationStatusRoundTrip(Some(b));
  }

  predicate IsOldMeetingLabel(s: string)
  {
    s == "cvReview" || s == "waitPickTime" || s == "waitMeeting" || s == "waitResult" || s == "reject" || s == "approve"
  }

  predicate IsMeetingLabel(s: string)
  {
    s == "cvReview" || s == "waitPickTime" || s == "waitMeeting" || s == "waitResult" || s == "rejected" || s == "approved"
  }

  /** The meeting upgrade: reject and approve are renamed, every other value (NULL included) is kept. */
  function UpgradeMeetingStatus(t: Option<string>): (r: Option<string>)
    ensures t.Some? && IsOldMeetingLabel(t.value) ==> r.Some? && IsMeetingLabel(r.value)
    ensures t != Some("reject") && t != Some("approve") ==> r == t
  {
    if t == Some("reject") then Some("rejected")
    else if t == Some("approve") then Some("approved")
    else t
  }

  /** The meeting downgrade: rejected and approved get their old names back, every other value is kept. */
  function DowngradeMeetingStatus(t: Option<string>): (r: Option<string>)
    ensures t.Some? && IsMeetingLabel(t.value) ==> r.Some? && IsOldMeetingLabel(r.value)
    ensures t != Some("rejected") && t != Some("approved") ==> r == t
  {
    if t == Some("rejected") then Some("reject")
    else if t == Some("approved") then Some("approve")
    else t
  }

  /** The round trip is the identity on the old meeting statuses and NULL, and the other way on the new ones. */
  lemma MeetingStatusRoundTrip(t: Option<string>)
    ensures t.None? || IsOldMeetingLabel(t.value) ==> DowngradeMeetingStatus(UpgradeMeetingStatus(t)) == t
    ensures t.None? || IsMeetingLabel(t.value) ==> UpgradeMeetingStatus(DowngradeMeetingStatus(t)) == t
  {
  }

  // ---- 657da183b25c: vacancy statuses ----

  /** The vacancy upgrade: found is closed, everything else (hold, approve, NULL, any other text) is active. */
  function UpgradeVacancyStatus(t: Option<string>): (r: string)
    ensures r == "active" || r == "closed"
    ensures r == "closed" <==> t == Some("found")
  {
    match t
    case Some("hold") => "active"
    case Some("found") => "closed"
    case Some("approve") => "active"
    case _ => "active"
  }

  /** The vacancy downgrade: closed is found, everything else (active, stopped, NULL) is hold. */
  function DowngradeVacancyStatus(t: Option<string>): (r: string)
    ensures r == "hold" || r == "found"
    ensures r == "found" <==> t == Some("closed")
  {
    match t
    case Some("active") => "hold"
    case Some("closed") => "found"
    case Some("stopped") => "hold"
    case _ => "hold"
  }

  /**
   * The vacancy round trips: hold and found come back, approve comes back as
   * hold; from the new side active and closed come back and stopped, which
   * the upgrade never produces, comes back as active.
   */
  lemma VacancyStatusRoundTrip()
    ensures DowngradeVacancyStatus(Some(UpgradeVacancyStatus(Some("hold")))) == "hold"
    ensures DowngradeVacancyStatus(Some(UpgradeVacancyStatus(Some("found")))) == "found"
    ensures DowngradeVacancyStatus(Some(UpgradeVacancyStatus(Some("approve")))) == "hold"
    ensures UpgradeVacancyStatus(Some(DowngradeVacancyStatus(Some("active")))) == "active"
    ensures UpgradeVacancyStatus(Some(DowngradeVacancyStatus(Some("closed")))) == "closed"
    ensures UpgradeVacancyStatus(Some(DowngradeVacancyStatus(Some("stopped")))) == "active"
  {
  }

  /** The vacancy upgrade loses information: two old statuses meet in active. */
  lemma VacancyUpgradeNotInjective()
    ensures UpgradeVacancyStatus(Some("hold")) == UpgradeVacancyStatus(Some("approve"))
  {
  }
}
