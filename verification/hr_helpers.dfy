/**
 * The HR API's mapping helpers: the status shown on an application card
 * (folded from the latest meeting, or from the application itself), the API
 * form of a vacancy row, and the merge of fields parsed from an uploaded
 * vacancy document into a vacancy object.
 */
module HrHelpers {
  import opened Wrappers
  import opened Seqs
  import opened Strings
  import opened PyJson
  import opened Db

  /** The five statuses an application card can show. */
  predicate IsCardStatus(s: string)
  {
    s == "cvReview" || s == "interview" || s == "waitResult" || s == "rejected" || s == "approved"
  }

  /** A meeting's ordering key `m.id or 0`. */
  function MeetingKey(m: MeetingRow): int
  {
    if m.id.Some? then m.id.value else 0
  }

  /** max(meetings, key=...): the position of the first meeting with the largest key. */
  function LatestMeeting(ms: seq<MeetingRow>): (i: nat)
    requires ms != []
    ensures i < |ms|
    ensures forall j :: 0 <= j < |ms| ==> MeetingKey(ms[j]) <= MeetingKey(ms[i])
    ensures forall j :: 0 <= j < i ==> MeetingKey(ms[j]) < MeetingKey(ms[i])
  {
    if |ms| == 1 then 0
    else
      var i := LatestMeeting(ms[..|ms| - 1]);
      if MeetingKey(ms[|ms| - 1]) > MeetingKey(ms[i]) then |ms| - 1 else i
  }

  /** `(x or "").strip()` for a nullable text column. */
  function StrippedText(s: Option<string>): string
  {
    if s.Some? then PyStrip(s.value) else ""
  }

  /** The card status of a meeting status. */
  function FromMeetingStatus(ms: string): (r: string)
    ensures IsCardStatus(r)
  {
    if ms == "reject" then "rejected"
    else if ms == "approve" then "approved"
    else if ms == "cvReview" then "cvReview"
    else if ms == "waitPickTime" || ms == "waitMeeting" then "interview"
    else if ms == "waitResult" then "waitResult"
    else "cvReview"
  }

  /** The card status of an application status, used when there is no meeting. */
  function FromApplicationStatus(s: string): (r: string)
    ensures IsCardStatus(r)
  {
    if s == "reject" then "rejected"
    else if s == "approve" then "approved"
    else if s == "review" || s == "screening" then "cvReview"
    else if s == "result" then "waitResult"
    else "cvReview"
  }

  /** _map_application_status: the latest meeting decides when there is one, else the application's own status. */
  function MapApplicationStatus(status: Option<string>, meetings: seq<MeetingRow>): (r: string)
    ensures IsCardStatus(r)
  {
    if meetings != [] then FromMeetingStatus(StrippedText(meetings[LatestMeeting(meetings)].status))
    else FromApplicationStatus(StrippedText(status))
  }

  /** A meeting newer than all others decides the card status, whatever came before. */
  lemma NewestMeetingDecides(status: Option<string>, meetings: seq<MeetingRow>, m: MeetingRow)
    requires forall j :: 0 <= j < |meetings| ==> MeetingKey(meetings[j]) < MeetingKey(m)
    ensures MapApplicationStatus(status, meetings + [m]) == FromMeetingStatus(StrippedText(m.status))
  {
    var ms := meetings + [m];
    if meetings != [] {
      assert ms[..|ms| - 1] == meetings;
    }
  }

  /** A meeting that is not newer than the latest one changes nothing. */
  lemma OlderMeetingIgnored(status: Option<string>, meetings: seq<MeetingRow>, m: MeetingRow)
    requires meetings != [] && MeetingKey(m) <= MeetingKey(meetings[LatestMeeting(meetings)])
    ensures MapApplicationStatus(status, meetings + [m]) == MapApplicationStatus(status, meetings)
  {
    var ms := meetings + [m];
    assert ms[..|ms| - 1] == meetings;
  }

  /** With a meeting present the application's own status is irrelevant. */
  lemma MeetingsOverrideApplicationStatus(s1: Option<string>, s2: Option<string>, meetings: seq<MeetingRow>)
    requires meetings != []
    ensures MapApplicationStatus(s1, meetings) == MapApplicationStatus(s2, meetings)
  {
  }

  /** The old status words map onto the card statuses as the meeting workflow does for reject/approve. */
  lemma ApplicationStatusTable()
    ensures FromApplicationStatus("reject") == "rejected" && FromApplicationStatus("approve") == "approved"
    ensures FromApplicationStatus("review") == "cvReview" && FromApplicationStatus("screening") == "cvReview"
    ensures FromApplicationStatus("result") == "waitResult"
    ensures FromMeetingStatus("waitPickTime") == "interview" && FromMeetingStatus("waitMeeting") == "interview"
    ensures FromMeetingStatus("reject") == "rejected" && FromMeetingStatus("approve") == "approved"
    ensures FromMeetingStatus("cvReview") == "cvReview" && FromMeetingStatus("waitResult") == "waitResult"
  {
  }

  predicate IsReview(a: ApplicationRow)
  {
    a.status == Some("review")
  }

  /** The API form of a vacancy (the salary figures are not modelled). */
  datatype VacancyResponse = VacancyResponse(
    vacancyId: int, name: Json, status: Json, department: Json, date: Option<int>,
    responses: nat, responsesWithout: nat, columns: map<Column, Json>, degree: Json, businessTrips: Json)

  /** The columns copied into the response as they are stored: all but name, status, department and the two flags. */
  predicate PassThrough(c: Column)
  {
    match c
    case Name | Status | Department | Degree | BusinessTrips => false
    case _ => true
  }

  /** `bool(x) if x is not None else None`. */
  function NullableBool(x: Json): (r: Json)
    ensures r == JNull <==> x == JNull
    ensures x != JNull ==> r == JBool(Truthy(x))
  {
    if x == JNull then JNull else JBool(Truthy(x))
  }

  /**
   * _vacancy_to_response: a missing name or department becomes "", responses
   * counts the vacancy's applications and responsesWithout those still in
   * review, so never more than responses.
   */
  function VacancyToResponse(v: VacancyRow, apps: seq<ApplicationRow>): (r: VacancyResponse)
    ensures r.vacancyId == v.id && r.date == v.date && r.status == Attr(v.attrs, Status)
    ensures r.name == OrElse(Attr(v.attrs, Name), JStr("")) && r.name != JNull
    ensures r.department == OrElse(Attr(v.attrs, Department), JStr("")) && r.department != JNull
    ensures r.responses == |apps| && r.responsesWithout <= r.responses
    ensures r.responsesWithout == |Filter(apps, IsReview)|
    ensures forall k :: k in r.columns <==> PassThrough(k)
    ensures forall k :: k in r.columns ==> r.columns[k] == Attr(v.attrs, k)
  {
    VacancyResponse(
      v.id, OrElse(Attr(v.attrs, Name), JStr("")), Attr(v.attrs, Status),
      OrElse(Attr(v.attrs, Department), JStr("")), v.date,
      |apps|, |Filter(apps, IsReview)|,
      map k: Column | PassThrough(k) :: Attr(v.attrs, k),
      NullableBool(Attr(v.attrs, Degree)), NullableBool(Attr(v.attrs, BusinessTrips)))
  }

  /** Applications all in review count fully; none in review count zero. */
  lemma ResponsesWithoutBounds(v: VacancyRow, apps: seq<ApplicationRow>)
    ensures (forall i :: 0 <= i < |apps| ==> IsReview(apps[i])) ==> VacancyToResponse(v, apps).responsesWithout == |apps|
    ensures (forall i :: 0 <= i < |apps| ==> !IsReview(apps[i])) ==> VacancyToResponse(v, apps).responsesWithout == 0
  {
    if forall i :: 0 <= i < |apps| ==> IsReview(apps[i]) {
      FilterAll(apps, IsReview);
    }
    if forall i :: 0 <= i < |apps| ==> !IsReview(apps[i]) {
      FilterNone(apps, IsReview);
    }
  }

  /** `mapped.get(key)`: None reads as NULL. */
  function Got(mapped: seq<(string, Json)>, c: Column): Json
  {
    GetOr(mapped, ColumnName(c), JNull)
  }

  /** The parsed document as a lookup by column. */
  function Getter(mapped: seq<(string, Json)>): Column -> Json
  {
    c => Got(mapped, c)
  }

  /** How a column takes its parsed value: keep the old value, fall back to "", or take the truthiness. */
  datatype Rule = KeepOld | Blank | Flag

  function RuleOf(c: Column): Rule
  {
    match c
    case Name => KeepOld
    case Status => KeepOld
    case OfferType => KeepOld
    case BusyType => KeepOld
    case Degree => Flag
    case BusinessTrips => Flag
    case _ => Blank
  }

  /** The value a column gets: `parsed or old`, `parsed or ""`, or `bool(parsed or False)`. */
  function NewValue(previous: Json, parsed: Json, rule: Rule): Json
  {
    match rule
    case KeepOld => OrElse(parsed, previous)
    case Blank => OrElse(parsed, JStr(""))
    case Flag => JBool(Truthy(parsed))
  }

  /** When the merge assigns a column: before `exp` is converted, `exp` itself, after it, or never. */
  datatype Phase = BeforeExp | AtExp | AfterExp | NotMerged

  function PhaseOf(c: Column): Phase
  {
    match c
    case Exp => AtExp
    case Degree | SpecialSoftware | ComputerSkills | ForeignLanguages | LanguageLevel | BusinessTrips => AfterExp
    case Department => NotMerged
    case _ => BeforeExp
  }

  /** Assigns every column of phase `p` from the parsed document; each reads only its own old value. */
  function Assign(a: map<Column, Json>, got: Column -> Json, p: Phase): (r: map<Column, Json>)
    ensures forall c :: c in r <==> c in a || PhaseOf(c) == p
    ensures forall c :: Attr(r, c) == if PhaseOf(c) == p then NewValue(Attr(a, c), got(c), RuleOf(c)) else Attr(a, c)
  {
    map c: Column | c in a || PhaseOf(c) == p :: if PhaseOf(c) == p then NewValue(Attr(a, c), got(c), RuleOf(c)) else a[c]
  }

  /** The columns after the merge, and the exception int() raised on `exp` if it did. */
  datatype Merged = Merged(attrs: map<Column, Json>, error: Option<PyError>)

  /** `int(mapped.get("exp") or 0)`. */
  function ExpValue(got: Column -> Json): Result<int, PyError>
  {
    PyInt(OrElse(got(Exp), JInt(0)))
  }

  /**
   * _apply_mapped_to_vacancy on values: the columns before `exp` are always
   * assigned; when int() rejects `exp` the merge stops there with that error,
   * otherwise `exp` and the columns after it are assigned too.
   */
  function MergeMapped(a: map<Column, Json>, got: Column -> Json): Merged
  {
    var before := Assign(a, got, BeforeExp);
    match ExpValue(got)
    case Err(e) => Merged(before, Some(e))
    case Ok(n) => Merged(Assign(before[Exp := JInt(n)], got, AfterExp), None)
  }

  /** A column not assigned after `exp` ends as the first assignments left it. */
  lemma MergeBeforeColumn(a: map<Column, Json>, got: Column -> Json, c: Column)
    requires PhaseOf(c) == BeforeExp || PhaseOf(c) == NotMerged
    ensures Attr(MergeMapped(a, got).attrs, c) == Attr(Assign(a, got, BeforeExp), c)
  {
  }

  /** Name, status, offerType and busyType take a non-empty parsed value, and keep their value otherwise. */
  lemma MergeKeepsOldWhenEmpty(a: map<Column, Json>, got: Column -> Json, c: Column)
    requires c in {Name, Status, OfferType, BusyType}
    ensures Truthy(got(c)) ==> Attr(MergeMapped(a, got).attrs, c) == got(c)
    ensures !Truthy(got(c)) ==> Attr(MergeMapped(a, got).attrs, c) == Attr(a, c)
  {
    MergeBeforeColumn(a, got, c);
  }

  /** The other text columns before exp take a non-empty parsed value, or "". */
  lemma MergeBlanksEmpty(a: map<Column, Json>, got: Column -> Json, c: Column)
    requires c in {Region, City, Address, Graph, BonusType, Description, Promt}
    ensures Truthy(got(c)) ==> Attr(MergeMapped(a, got).attrs, c) == got(c)
    ensures !Truthy(got(c)) ==> Attr(MergeMapped(a, got).attrs, c) == JStr("")
  {
    MergeBeforeColumn(a, got, c);
  }

  /**
   * The merge fails exactly when int() rejects exp. On success exp is that
   * integer (0 when empty), the flags are booleans and the text columns after
   * exp take a non-empty parsed value, or "".
   */
  lemma MergeSuccess(a: map<Column, Json>, got: Column -> Json, c: Column)
    ensures MergeMapped(a, got).error.None? <==> ExpValue(got).Ok?
    ensures ExpValue(got).Ok? ==> Attr(MergeMapped(a, got).attrs, Exp) == JInt(ExpValue(got).value)
    ensures !Truthy(got(Exp)) ==> Attr(MergeMapped(a, got).attrs, Exp) == JInt(0)
    ensures ExpValue(got).Ok? && c in {Degree, BusinessTrips} ==> Attr(MergeMapped(a, got).attrs, c) == JBool(Truthy(got(c)))
    ensures ExpValue(got).Ok? && c in {SpecialSoftware, ComputerSkills, ForeignLanguages, LanguageLevel} ==>
      Attr(MergeMapped(a, got).attrs, c) == OrElse(got(c), JStr(""))
  {
  }

  lemma MergeOnError(a: map<Column, Json>, got: Column -> Json)
    requires ExpValue(got).Err?
    ensures MergeMapped(a, got) == Merged(Assign(a, got, BeforeExp), Some(ExpValue(got).error))
  {
  }

  lemma MergeOnSuccess(a: map<Column, Json>, got: Column -> Json)
    requires ExpValue(got).Ok?
    ensures MergeMapped(a, got) == Merged(Assign(Assign(a, got, BeforeExp)[Exp := JInt(ExpValue(got).value)], got, AfterExp), None)
  {
  }

  /** When int() rejects exp, exp and every column after it keep their old value. */
  lemma MergeStopsAtExp(a: map<Column, Json>, got: Column -> Json, c: Column)
    requires ExpValue(got).Err?
    requires PhaseOf(c) == AtExp || PhaseOf(c) == AfterExp
    ensures Attr(MergeMapped(a, got).attrs, c) == Attr(a, c)
  {
    MergeOnError(a, got);
  }

  /** Columns the merge does not name (department) are untouched. */
  lemma MergeLeavesOthers(a: map<Column, Json>, got: Column -> Json, c: Column)
    requires PhaseOf(c) == NotMerged
    ensures Attr(MergeMapped(a, got).attrs, c) == Attr(a, c)
  {
    MergeBeforeColumn(a, got, c);
  }

  lemma NewValueIdempotent(x: Json, parsed: Json, rule: Rule)
    ensures NewValue(NewValue(x, parsed, rule), parsed, rule) == NewValue(x, parsed, rule)
  {
  }

  /** Assigning columns that already hold their assigned value changes nothing. */
  lemma AssignFixed(a: map<Column, Json>, got: Column -> Json, p: Phase)
    requires forall c :: PhaseOf(c) == p ==> c in a && NewValue(a[c], got(c), RuleOf(c)) == a[c]
    ensures Assign(a, got, p) == a
  {
    var r := Assign(a, got, p);
    assert r.Keys == a.Keys;
    forall c | c in a.Keys ensures r[c] == a[c] {
      assert Attr(r, c) == Attr(a, c);
    }
  }

  lemma AssignAgain(a: map<Column, Json>, got: Column -> Json, p: Phase)
    ensures Assign(Assign(a, got, p), got, p) == Assign(a, got, p)
  {
    var once := Assign(a, got, p);
    forall c | PhaseOf(c) == p ensures c in once && NewValue(once[c], got(c), RuleOf(c)) == once[c] {
      NewValueIdempotent(Attr(a, c), got(c), RuleOf(c));
    }
    AssignFixed(once, got, p);
  }

  lemma MergeIdempotentOnError(a: map<Column, Json>, got: Column -> Json)
    requires ExpValue(got).Err?
    ensures MergeMapped(MergeMapped(a, got).attrs, got) == MergeMapped(a, got)
  {
    AssignAgain(a, got, BeforeExp);
    MergeOnError(a, got);
    MergeOnError(Assign(a, got, BeforeExp), got);
  }

  lemma MergeIdempotentOnSuccess(a: map<Column, Json>, got: Column -> Json)
    requires ExpValue(got).Ok?
    ensures MergeMapped(MergeMapped(a, got).attrs, got) == MergeMapped(a, got)
  {
    var n := ExpValue(got).value;
    var before := Assign(a, got, BeforeExp);
    var done := Assign(before[Exp := JInt(n)], got, AfterExp);
    MergeOnSuccess(a, got);
    forall c | PhaseOf(c) == BeforeExp ensures c in done && NewValue(done[c], got(c), RuleOf(c)) == done[c] {
      assert Attr(done, c) == Attr(before, c);
      NewValueIdempotent(Attr(a, c), got(c), RuleOf(c));
    }
    AssignFixed(done, got, BeforeExp);
    assert done[Exp := JInt(n)] == done;
    AssignAgain(before[Exp := JInt(n)], got, AfterExp);
    MergeOnSuccess(done, got);
  }

  /** Merging the same parsed document twice is merging it once. */
  lemma MergeIdempotent(a: map<Column, Json>, got: Column -> Json)
    ensures MergeMapped(MergeMapped(a, got).attrs, got) == MergeMapped(a, got)
  {
    if ExpValue(got).Err? {
      MergeIdempotentOnError(a, got);
    } else {
      MergeIdempotentOnSuccess(a, got);
    }
  }

  /** The ORM vacancy object the merge assigns in place. */
  class VacancyObject {
    const id: int
    var hrId: Option<int>
    var date: Option<int>
    var attrs: map<Column, Json>

    constructor(row: VacancyRow)
      ensures id == row.id && hrId == row.hrId && date == row.date && attrs == row.attrs
    {
      id := row.id;
      hrId := row.hrId;
      date := row.date;
      attrs := row.attrs;
    }

    function Row(): VacancyRow
      reads this
    {
      VacancyRow(id, hrId, date, attrs)
    }

    /** _apply_mapped_to_vacancy: assigns the columns in order; an int() failure on exp propagates. */
    method ApplyMapped(mapped: seq<(string, Json)>) returns (error: Option<PyError>)
      modifies this
      ensures hrId == old(hrId) && date == old(date)
      ensures attrs == MergeMapped(old(attrs), Getter(mapped)).attrs
      ensures error == MergeMapped(old(attrs), Getter(mapped)).error
    {
      var got := Getter(mapped);
      attrs := Assign(attrs, got, BeforeExp);
      var exp := ExpValue(got);
      if exp.Err? {
        return Some(exp.error);
      }
      attrs := attrs[Exp := JInt(exp.value)];
      attrs := Assign(attrs, got, AfterExp);
      error := None;
    }
  }
}
