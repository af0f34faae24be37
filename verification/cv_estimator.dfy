/**
 * The CV estimator's handling of the language model's reply: cutting the
 * outermost JSON object out of the text, falling back to an empty result
 * when it does not parse, and normalising every criterion (dropping entries
 * that are not objects, clamping scores to 0..100, keeping only non-blank
 * strengths and weaknesses). The model's reply and json.loads are inputs.
 */
module CvEstimator {
  import opened Wrappers
  import opened Strings
  import opened Seqs
  import opened PyJson

  /**
   * What evaluate_cv raises: ValueError for an empty criteria list or a
   * missing key, TypeError when a list it iterates is null, a number or a
   * boolean.
   */
  datatype CvError = EmptyCriteria | MissingApiKey | NotIterable

  /** json.loads applied to a text that starts with '{' and ends with '}': a dict, or None when it raises. */
  type Loads = string -> Option<seq<(string, Json)>>

  /**
   * The text from the first '{' to the last '}' inclusive; None (the
   * ValueError) exactly when no '{' comes before a '}'.
   */
  function ExtractOuterJson(text: string): (r: Option<string>)
    ensures r.None? <==> forall i, j :: 0 <= i < j < |text| ==> text[i] != '{' || text[j] != '}'
    ensures r.Some? ==> |r.value| >= 2 && r.value[0] == '{' && r.value[|r.value| - 1] == '}'
    ensures r.Some? ==> Contains(text, r.value)
  {
    var start := Find(text, '{');
    var end := RFind(text, '}');
    if start.None? || end.None? || end.value <= start.value then None
    else
      ContainsAt(text, text[start.value..end.value + 1], start.value);
      Some(text[start.value..end.value + 1])
  }

  /** A reply framed by text with no '{' before and no '}' after yields exactly the framed object. */
  lemma ExtractFramed(pre: string, body: string, post: string)
    requires forall i :: 0 <= i < |pre| ==> pre[i] != '{'
    requires forall i :: 0 <= i < |post| ==> post[i] != '}'
    ensures ExtractOuterJson(pre + "{" + body + "}" + post) == Some("{" + body + "}")
  {
    var text := pre + "{" + body + "}" + post;
    var end := |pre| + 1 + |body|;
    assert text[|pre|] == '{';
    assert Find(text, '{') == Some(|pre|);
    assert text[end] == '}';
    assert forall i :: end < i < |text| ==> text[i] == post[i - end - 1];
    RFindIs(text, '}', end);
    assert text[|pre|..end + 1] == "{" + body + "}";
  }

  /** The result of a reply that does not parse. */
  function ParseFailure(raw: string): (r: seq<(string, Json)>)
    ensures Get(r, "criteria") == Some(JArr([]))
    ensures Get(r, "raw_model_output") == Some(JStr(raw))
    ensures Get(r, "parse_error") == Some(JBool(true))
  {
    var r := [("criteria", JArr([])), ("raw_model_output", JStr(raw)), ("parse_error", JBool(true))];
    assert Get(r[2..], "parse_error") == Some(JBool(true));
    assert r[1..][1..] == r[2..];
    assert Get(r[1..], "parse_error") == Get(r[2..], "parse_error");
    r
  }

  /** The reply has no JSON object, or json.loads rejects it. */
  predicate Unparseable(raw: string, loads: Loads)
  {
    ExtractOuterJson(raw).None? || loads(ExtractOuterJson(raw).value).None?
  }

  /** _parse_model_output: the parsed object, or the failure result carrying the raw text. */
  function ParseModelOutput(raw: string, loads: Loads): (r: seq<(string, Json)>)
    ensures Unparseable(raw, loads) ==>
      Get(r, "criteria") == Some(JArr([])) && Get(r, "raw_model_output") == Some(JStr(raw))
      && Get(r, "parse_error") == Some(JBool(true))
    ensures !Unparseable(raw, loads) ==> r == loads(ExtractOuterJson(raw).value).value
  {
    match ExtractOuterJson(raw)
    case None => ParseFailure(raw)
    case Some(obj) =>
      match loads(obj)
      case None => ParseFailure(raw)
      case Some(d) => d
  }

  /** The parsed reply, with raw_model_output added when the model did not send one. */
  function WithRawOutput(parsed: seq<(string, Json)>, raw: string): (r: seq<(string, Json)>)
    ensures Get(r, "raw_model_output").Some?
    ensures Get(parsed, "raw_model_output").Some? ==> r == parsed
    ensures Get(parsed, "raw_model_output").None? ==> Get(r, "raw_model_output") == Some(JStr(raw))
  {
    if Get(parsed, "raw_model_output").Some? then parsed
    else
      GetSetSame(parsed, "raw_model_output", JStr(raw));
      Set(parsed, "raw_model_output", JStr(raw))
  }

  /** The API key: the argument when it is non-empty, else the environment's; None when neither is. */
  function ApiKey(apiKey: Option<string>, envKey: Option<string>): (r: Option<string>)
    ensures r.Some? ==> r.value != ""
    ensures apiKey.Some? && apiKey.value != "" ==> r == apiKey
    ensures r.None? <==> (apiKey.None? || apiKey.value == "") && (envKey.None? || envKey.value == "")
  {
    var key := if apiKey.Some? && apiKey.value != "" then apiKey else envKey;
    if key.Some? && key.value != "" then key else None
  }

  /** What `for x in v` walks over: a list's items, a dict's keys, a string's characters. */
  function Items(v: Json): (r: Result<seq<Json>, CvError>)
    ensures v.JArr? ==> r == Ok(v.items)
    ensures v.JObj? ==> r.Ok? && |r.value| == |v.fields| && forall i :: 0 <= i < |r.value| ==> r.value[i] == JStr(v.fields[i].0)
    ensures v.JStr? ==> r.Ok? && |r.value| == |v.s| && forall i :: 0 <= i < |r.value| ==> r.value[i] == JStr([v.s[i]])
    ensures v.JNull? || v.JInt? || v.JBool? ==> r == Err(NotIterable)
  {
    match v
    case JArr(items) => Ok(items)
    case JObj(fields) => Ok(seq(|fields|, i requires 0 <= i < |fields| => JStr(fields[i].0)))
    case JStr(s) => Ok(seq(|s|, i requires 0 <= i < |s| => JStr([s[i]])))
    case _ => Err(NotIterable)
  }

  /** `[s.strip() for s in items if isinstance(s, str) and s.strip()]`. */
  function CleanStrings(items: seq<Json>): (r: seq<string>)
    ensures |r| <= |items|
    ensures forall i :: 0 <= i < |r| ==> r[i] != "" && PyStrip(r[i]) == r[i]
  {
    if items == [] then []
    else
      var rest := CleanStrings(items[1..]);
      if items[0].JStr? && PyStrip(items[0].s) != "" then
        TrimIdempotent(items[0].s, IsPySpace);
        [PyStrip(items[0].s)] + rest
      else rest
  }

  /** The JSON strings of a list of strings. */
  function StrItems(ss: seq<string>): (r: seq<Json>)
    ensures |r| == |ss| && forall i :: 0 <= i < |ss| ==> r[i] == JStr(ss[i])
  {
    seq(|ss|, i requires 0 <= i < |ss| => JStr(ss[i]))
  }

  /** A list that is already clean is kept as it is. */
  lemma {:induction false} CleanStringsKeepsClean(ss: seq<string>)
    requires forall i :: 0 <= i < |ss| ==> ss[i] != "" && PyStrip(ss[i]) == ss[i]
    ensures CleanStrings(StrItems(ss)) == ss
  {
    if ss != [] {
      CleanStringsKeepsClean(ss[1..]);
      assert StrItems(ss)[1..] == StrItems(ss[1..]);
    }
  }

  /** Cleaning twice is cleaning once. */
  lemma CleanStringsIdempotent(items: seq<Json>)
    ensures CleanStrings(StrItems(CleanStrings(items))) == CleanStrings(items)
  {
    CleanStringsKeepsClean(CleanStrings(items));
  }

  /** The strings of the list a criterion stores under key. */
  function StringList(fields: seq<(string, Json)>, key: string): (r: Result<seq<string>, CvError>)
    ensures r.Err? <==> Items(GetOr(fields, key, JArr([]))).Err?
    ensures r.Ok? ==> r.value == CleanStrings(Items(GetOr(fields, key, JArr([]))).value)
  {
    match Items(GetOr(fields, key, JArr([])))
    case Err(e) => Err(e)
    case Ok(items) => Ok(CleanStrings(items))
  }

  /** int(score) clamped to 0..100, with 0 for a value int() rejects. */
  function Score(v: Json): (r: int)
    ensures 0 <= r <= 100
    ensures PyInt(v).Ok? && 0 <= PyInt(v).value <= 100 ==> r == PyInt(v).value
    ensures PyInt(v).Ok? && PyInt(v).value > 100 ==> r == 100
    ensures PyInt(v).Ok? && PyInt(v).value < 0 ==> r == 0
    ensures PyInt(v).Err? ==> r == 0
  {
    var n := match PyInt(v) case Ok(n) => n case Err(_) => 0;
    if n < 0 then 0 else if n > 100 then 100 else n
  }

  /** A normalised criterion. */
  datatype Criterion = Criterion(name: string, score: int, strengths: seq<string>, weaknesses: seq<string>)

  function CriterionJson(c: Criterion): Json
  {
    JObj([("name", JStr(c.name)), ("score", JInt(c.score)),
          ("strengths", JArr(StrItems(c.strengths))), ("weaknesses", JArr(StrItems(c.weaknesses)))])
  }

  function CriteriaJson(cs: seq<Criterion>): (r: seq<Json>)
    ensures |r| == |cs| && forall i :: 0 <= i < |cs| ==> r[i] == CriterionJson(cs[i])
  {
    seq(|cs|, i requires 0 <= i < |cs| => CriterionJson(cs[i]))
  }

  /**
   * One criterion object: its stripped name (str() of whatever was sent, ""
   * when absent), its clamped score, and its cleaned strengths and
   * weaknesses; fails when either list is not iterable.
   */
  function NormalizeOne(fields: seq<(string, Json)>): (r: Result<Criterion, CvError>)
    ensures r.Err? <==> StringList(fields, "strengths").Err? || StringList(fields, "weaknesses").Err?
    ensures r.Ok? ==> r.value.name == PyStrip(Str(GetOr(fields, "name", JStr(""))))
    ensures r.Ok? ==> 0 <= r.value.score <= 100 && r.value.score == Score(GetOr(fields, "score", JInt(0)))
    ensures r.Ok? ==> r.value.strengths == StringList(fields, "strengths").value
    ensures r.Ok? ==> r.value.weaknesses == StringList(fields, "weaknesses").value
  {
    var name := PyStrip(Str(GetOr(fields, "name", JStr(""))));
    var score := Score(GetOr(fields, "score", JInt(0)));
    match StringList(fields, "strengths")
    case Err(e) => Err(e)
    case Ok(strengths) =>
      match StringList(fields, "weaknesses")
      case Err(e) => Err(e)
      case Ok(weaknesses) => Ok(Criterion(name, score, strengths, weaknesses))
  }

  predicate IsDict(j: Json) { j.JObj? }

  /** The normalised criteria: entries that are not objects are skipped; the first failure stops the loop. */
  function NormalizeSpec(items: seq<Json>): Result<seq<Criterion>, CvError>
  {
    if items == [] then Ok([])
    else if !items[0].JObj? then NormalizeSpec(items[1..])
    else match NormalizeOne(items[0].fields)
      case Err(e) => Err(e)
      case Ok(c) => Prepend([c], NormalizeSpec(items[1..]))
  }

  function Prepend(done: seq<Criterion>, rest: Result<seq<Criterion>, CvError>): (r: Result<seq<Criterion>, CvError>)
    ensures rest.Err? ==> r == rest
    ensures rest.Ok? ==> r == Ok(done + rest.value)
  {
    match rest
    case Err(e) => Err(e)
    case Ok(cs) => Ok(done + cs)
  }

  /**
   * The loop succeeds exactly when every object entry normalises, and then
   * yields one criterion per object entry, in their order.
   */
  lemma {:induction false} NormalizeOkIff(items: seq<Json>)
    ensures NormalizeSpec(items).Ok? <==>
      forall i :: 0 <= i < |items| && items[i].JObj? ==> NormalizeOne(items[i].fields).Ok?
  {
    if items != [] {
      NormalizeOkIff(items[1..]);
      assert forall i :: 1 <= i < |items| ==> items[i] == items[1..][i - 1];
    }
  }

  /** The criteria, one per object entry in order, when the loop succeeds. */
  predicate OnePerDict(cs: seq<Criterion>, dicts: seq<Json>)
  {
    |cs| == |dicts| && forall k :: 0 <= k < |dicts| ==> dicts[k].JObj? && NormalizeOne(dicts[k].fields).Ok? && cs[k] == NormalizeOne(dicts[k].fields).value
  }

  lemma OnePerDictCons(c: Criterion, cs: seq<Criterion>, d: Json, dicts: seq<Json>)
    requires OnePerDict(cs, dicts)
    requires d.JObj? && NormalizeOne(d.fields) == Ok(c)
    ensures OnePerDict([c] + cs, [d] + dicts)
  {
    var cs', dicts' := [c] + cs, [d] + dicts;
    forall k | 0 <= k < |dicts'|
      ensures dicts'[k].JObj? && NormalizeOne(dicts'[k].fields).Ok? && cs'[k] == NormalizeOne(dicts'[k].fields).value
    {
      if k > 0 {
        assert dicts'[k] == dicts[k - 1] && cs'[k] == cs[k - 1];
      }
    }
  }

  lemma {:induction false} NormalizeKeepsDicts(items: seq<Json>)
    requires NormalizeSpec(items).Ok?
    ensures OnePerDict(NormalizeSpec(items).value, Filter(items, IsDict))
  {
    if items != [] {
      var rest := items[1..];
      assert items[0..] == items;
      NormalizeAt(items, 0);
      if items[0].JObj? {
        assert Filter(items, IsDict) == [items[0]] + Filter(rest, IsDict);
        NormalizeKeepsDicts(rest);
        OnePerDictCons(NormalizeOne(items[0].fields).value, NormalizeSpec(rest).value, items[0], Filter(rest, IsDict));
      } else {
        assert Filter(items, IsDict) == Filter(rest, IsDict);
        NormalizeKeepsDicts(rest);
      }
    }
  }

  /** Every normalised score lies in 0..100. */
  lemma NormalizedScoresInRange(items: seq<Json>)
    requires NormalizeSpec(items).Ok?
    ensures forall i :: 0 <= i < |NormalizeSpec(items).value| ==> 0 <= NormalizeSpec(items).value[i].score <= 100
  {
    NormalizeKeepsDicts(items);
  }

  lemma PrependNothing(rest: Result<seq<Criterion>, CvError>)
    ensures Prepend([], rest) == rest
  {
    if rest.Ok? {
      assert [] + rest.value == rest.value;
    }
  }

  lemma PrependTwice(a: seq<Criterion>, b: seq<Criterion>, rest: Result<seq<Criterion>, CvError>)
    ensures Prepend(a, Prepend(b, rest)) == Prepend(a + b, rest)
  {
    if rest.Ok? {
      assert a + (b + rest.value) == (a + b) + rest.value;
    }
  }

  /** NormalizeSpec on the entries from position i, unfolded once. */
  lemma NormalizeAt(items: seq<Json>, i: nat)
    requires i < |items|
    ensures !items[i].JObj? ==> NormalizeSpec(items[i..]) == NormalizeSpec(items[i + 1..])
    ensures items[i].JObj? && NormalizeOne(items[i].fields).Err? ==>
      NormalizeSpec(items[i..]) == Err(NormalizeOne(items[i].fields).error)
    ensures items[i].JObj? && NormalizeOne(items[i].fields).Ok? ==>
      NormalizeSpec(items[i..]) == Prepend([NormalizeOne(items[i].fields).value], NormalizeSpec(items[i + 1..]))
  {
    assert items[i..][0] == items[i];
    assert items[i..][1..] == items[i + 1..];
  }

  /** The normalising loop of evaluate_cv. */
  method NormalizeCriteria(items: seq<Json>) returns (r: Result<seq<Criterion>, CvError>)
    ensures r == NormalizeSpec(items)
  {
    var normalized: seq<Criterion> := [];
    assert items[0..] == items;
    PrependNothing(NormalizeSpec(items));
    for i := 0 to |items|
      invariant NormalizeSpec(items) == Prepend(normalized, NormalizeSpec(items[i..]))
    {
      NormalizeAt(items, i);
      var c := items[i];
      if !c.JObj? {
        continue;
      }
      var one := NormalizeOne(c.fields);
      if one.Err? {
        return Err(one.error);
      }
      PrependTwice(normalized, [one.value], NormalizeSpec(items[i + 1..]));
      normalized := normalized + [one.value];
    }
    assert items[|items|..] == [];
    assert normalized + [] == normalized;
    r := Ok(normalized);
  }

  /** The parsed reply that evaluate_cv normalises. */
  function Parsed(reply: string, loads: Loads): seq<(string, Json)>
  {
    WithRawOutput(ParseModelOutput(PyStrip(reply), loads), PyStrip(reply))
  }

  /** The normalised criteria of a reply. */
  function Normalized(reply: string, loads: Loads): Result<seq<Criterion>, CvError>
  {
    match Items(GetOr(Parsed(reply, loads), "criteria", JArr([])))
    case Err(e) => Err(e)
    case Ok(items) => NormalizeSpec(items)
  }

  /** A reply that does not parse yields the failure result itself. */
  lemma UnparseableResult(reply: string, loads: Loads)
    requires Unparseable(PyStrip(reply), loads)
    ensures Parsed(reply, loads) == ParseFailure(PyStrip(reply))
    ensures Normalized(reply, loads) == Ok([])
  {
  }

  /**
   * evaluate_cv after the model call: the criteria list must be non-empty
   * and a key present; the result is the parsed object with raw_model_output
   * always present and criteria replaced by the normalised list.
   */
  method EvaluateCv(criteria: seq<string>, apiKey: Option<string>, envKey: Option<string>, reply: string, loads: Loads)
    returns (r: Result<seq<(string, Json)>, CvError>)
    ensures criteria == [] ==> r == Err(EmptyCriteria)
    ensures criteria != [] && ApiKey(apiKey, envKey).None? ==> r == Err(MissingApiKey)
    ensures r.Ok? <==> criteria != [] && ApiKey(apiKey, envKey).Some? && Normalized(reply, loads).Ok?
    ensures r.Ok? ==> Get(r.value, "raw_model_output").Some?
    ensures r.Ok? ==> Get(r.value, "criteria") == Some(JArr(CriteriaJson(Normalized(reply, loads).value)))
    ensures r.Ok? && Unparseable(PyStrip(reply), loads) ==> r.value == ParseFailure(PyStrip(reply))
    ensures criteria != [] && ApiKey(apiKey, envKey).Some? && Normalized(reply, loads).Err? ==>
      r == Err(Normalized(reply, loads).error)
    ensures r.Ok? ==> r.value == Set(Parsed(reply, loads), "criteria", JArr(CriteriaJson(Normalized(reply, loads).value)))
    ensures r.Ok? ==> forall k :: k != "criteria" ==> Get(r.value, k) == Get(Parsed(reply, loads), k)
    ensures r.Ok? ==>
      var own := Get(ParseModelOutput(PyStrip(reply), loads), "raw_model_output");
      Get(r.value, "raw_model_output") == if own.Some? then own else Some(JStr(PyStrip(reply)))
  {
    if criteria == [] {
      return Err(EmptyCriteria);
    }
    var key := ApiKey(apiKey, envKey);
    if key.None? {
      return Err(MissingApiKey);
    }
    var raw := PyStrip(reply);
    var parsed := WithRawOutput(ParseModelOutput(raw, loads), raw);
    var crit := Items(GetOr(parsed, "criteria", JArr([])));
    if crit.Err? {
      return Err(crit.error);
    }
    var normalized := NormalizeCriteria(crit.value);
    if normalized.Err? {
      return Err(normalized.error);
    }
    var out := Set(parsed, "criteria", JArr(CriteriaJson(normalized.value)));
    GetSetSame(parsed, "criteria", JArr(CriteriaJson(normalized.value)));
    GetSetOther(parsed, "criteria", "raw_model_output", JArr(CriteriaJson(normalized.value)));
    forall k | k != "criteria"
      ensures Get(out, k) == Get(parsed, k)
    {
      GetSetOther(parsed, "criteria", k, JArr(CriteriaJson(normalized.value)));
    }
    if Unparseable(raw, loads) {
      UnparseableResult(reply, loads);
      assert parsed == ParseFailure(raw);
      assert CriteriaJson(normalized.value) == [];
      FailureKeepsEmptyCriteria(raw);
    }
    r := Ok(out);
  }

  /** Writing the empty criteria list into the failure result changes nothing. */
  lemma FailureKeepsEmptyCriteria(raw: string)
    ensures Set(ParseFailure(raw), "criteria", JArr([])) == ParseFailure(raw)
  {
    var f := ParseFailure(raw);
    assert f[0] == ("criteria", JArr([]));
    assert [f[0]] + f[1..] == f;
  }
}
