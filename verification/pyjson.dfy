/**
 * JSON values as Python's json.loads returns them (dict, list, str, int,
 * bool, None), with the dict operations, truthiness, str() and int() the
 * backend and ML code apply to them.
 */
module PyJson {
  import opened Wrappers
  import opened Strings

  /** A dict keeps its keys in insertion order; numbers with a fraction are not represented. */
  datatype Json =
    | JNull
    | JBool(b: bool)
    | JInt(i: int)
    | JStr(s: string)
    | JArr(items: seq<Json>)
    | JObj(fields: seq<(string, Json)>)

  /** Python truthiness: None, False, 0, "" and empty containers are false. */
  predicate Truthy(j: Json)
  {
    match j
    case JNull => false
    case JBool(b) => b
    case JInt(i) => i != 0
    case JStr(s) => s != ""
    case JArr(items) => items != []
    case JObj(fields) => fields != []
  }

  /** dict.get(key): the value stored under key. */
  function Get(fields: seq<(string, Json)>, key: string): (r: Option<Json>)
    ensures r.Some? <==> exists i :: 0 <= i < |fields| && fields[i].0 == key
    ensures r.Some? ==> (key, r.value) in fields
  {
    if fields == [] then None
    else if fields[0].0 == key then Some(fields[0].1)
    else Get(fields[1..], key)
  }

  function GetOr(fields: seq<(string, Json)>, key: string, default: Json): Json
  {
    Get(fields, key).GetOr(default)
  }

  /** d[key] = value: replaces the value in place, or appends a new key at the end. */
  function Set(fields: seq<(string, Json)>, key: string, v: Json): (r: seq<(string, Json)>)
    ensures Get(fields, key).Some? ==> |r| == |fields|
    ensures Get(fields, key).None? ==> r == fields + [(key, v)]
  {
    if fields == [] then [(key, v)]
    else if fields[0].0 == key then [(key, v)] + fields[1..]
    else [fields[0]] + Set(fields[1..], key, v)
  }

  /** The value read is that of the first field with the key. */
  lemma {:induction false} GetFirst(fields: seq<(string, Json)>, key: string, k: nat)
    requires k < |fields| && fields[k].0 == key
    requires forall i :: 0 <= i < k ==> fields[i].0 != key
    ensures Get(fields, key) == Some(fields[k].1)
    decreases k
  {
    if k > 0 {
      assert fields[0].0 != key;
      GetFirst(fields[1..], key, k - 1);
    }
  }

  lemma {:induction false} GetSetSame(fields: seq<(string, Json)>, key: string, v: Json)
    ensures Get(Set(fields, key, v), key) == Some(v)
  {
    if fields != [] && fields[0].0 != key {
      GetSetSame(fields[1..], key, v);
    }
  }

  lemma {:induction false} GetSetOther(fields: seq<(string, Json)>, key: string, other: string, v: Json)
    requires other != key
    ensures Get(Set(fields, key, v), other) == Get(fields, other)
  {
    if fields != [] && fields[0].0 != key && fields[0].0 != other {
      GetSetOther(fields[1..], key, other, v);
    }
  }

  function PyBoolText(b: bool): string { if b then "True" else "False" }

  /** repr() of a value; string escapes are not modelled. */
  function Repr(j: Json): string
  {
    match j
    case JNull => "None"
    case JBool(b) => PyBoolText(b)
    case JInt(i) => IntToString(i)
    case JStr(s) => "'" + s + "'"
    case JArr(items) => "[" + Join(seq(|items|, k requires 0 <= k < |items| => Repr(items[k])), ", ") + "]"
    case JObj(fields) =>
      "{" + Join(seq(|fields|, k requires 0 <= k < |fields| => "'" + fields[k].0 + "': " + Repr(fields[k].1)), ", ") + "}"
  }

  /** str(): a string is itself, everything else its repr. */
  function Str(j: Json): (r: string)
    ensures j.JStr? ==> r == j.s
    ensures j.JInt? ==> r == IntToString(j.i)
  {
    if j.JStr? then j.s else Repr(j)
  }

  predicate IsDigit(c: char) { '0' <= c <= '9' }

  /** The digits of an integer literal with single underscores between digits. */
  predicate WellFormedDigits(s: string)
  {
    s != [] && IsDigit(s[0]) && IsDigit(s[|s| - 1])
    && forall i :: 0 <= i < |s| ==> IsDigit(s[i]) || (s[i] == '_' && i + 1 < |s| && IsDigit(s[i + 1]))
  }

  /** The value of a digit string, skipping underscores. */
  function DigitsValue(s: string): nat
  {
    if s == [] then 0
    else if IsDigit(s[|s| - 1]) then DigitsValue(s[..|s| - 1]) * 10 + (s[|s| - 1] as int - '0' as int)
    else DigitsValue(s[..|s| - 1])
  }

  /** Python's int(str): surrounding whitespace, an optional sign, then digits. */
  function ParseInt(s: string): (r: Option<int>)
    ensures r.Some? ==> PyStrip(s) != ""
  {
    var t := PyStrip(s);
    if t == [] then None
    else
      var neg := t[0] == '-';
      var body := if t[0] == '-' || t[0] == '+' then t[1..] else t;
      var v: int := DigitsValue(body);
      if WellFormedDigits(body) then Some(if neg then -v else v) else None
  }

  lemma {:induction false} NatToStringDigits(n: nat)
    ensures WellFormedDigits(NatToString(n)) && DigitsValue(NatToString(n)) == n
  {
    var r := NatToString(n);
    if n >= 10 {
      NatToStringDigits(n / 10);
      var p := NatToString(n / 10);
      assert r[..|r| - 1] == p;
      assert forall i :: 0 <= i < |r| ==> IsDigit(r[i]);
    } else {
      assert r == [DigitChar(n)];
    }
  }

  lemma DigitNotSpace(c: char)
    requires IsDigit(c) || c == '-'
    ensures !IsPySpace(c)
  {
  }

  /** int(str(n)) == n: the decimal text of an integer parses back to it. */
  lemma ParseIntOfIntToString(n: int)
    ensures ParseInt(IntToString(n)) == Some(n)
  {
    var t := IntToString(n);
    var m: nat := if n < 0 then -n else n;
    NatToStringDigits(m);
    var d := NatToString(m);
    assert t == if n < 0 then "-" + d else d;
    DigitNotSpace(t[0]);
    DigitNotSpace(t[|t| - 1]);
    PyStripNoop(t);
    if n < 0 {
      assert t[1..] == d;
    }
  }

  /** The built-in exceptions the modelled conversions raise. */
  datatype PyError = ValueError | TypeError

  /** Python's int() of a JSON value: ints as they are, booleans as 0/1, strings parsed, anything else a TypeError. */
  function PyInt(j: Json): (r: Result<int, PyError>)
    ensures j.JInt? ==> r == Ok(j.i)
    ensures j.JBool? ==> r == Ok(if j.b then 1 else 0)
    ensures j.JStr? ==> (r.Ok? <==> ParseInt(j.s).Some?)
    ensures j.JStr? && r.Err? ==> r.error == ValueError
    ensures j.JNull? || j.JArr? || j.JObj? ==> r == Err(TypeError)
  {
    match j
    case JInt(i) => Ok(i)
    case JBool(b) => Ok(if b then 1 else 0)
    case JStr(s) => if ParseInt(s).Some? then Ok(ParseInt(s).value) else Err(ValueError)
    case _ => Err(TypeError)
  }

  /** int(str(n)) for the string form of any integer gives n back. */
  lemma PyIntOfDecimalText(n: int)
    ensures PyInt(JStr(IntToString(n))) == Ok(n)
  {
    ParseIntOfIntToString(n);
  }

  /** Python's `x or default`. */
  function OrElse(x: Json, default: Json): (r: Json)
    ensures Truthy(x) ==> r == x
    ensures !Truthy(x) ==> r == default
  {
    if Truthy(x) then x else default
  }
}
