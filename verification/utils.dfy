/** The frontend's small string helper `capitalizeFirst`. */
module Utils {
  import opened Strings

  /** The JavaScript values capitalizeFirst can receive: strings, and everything else (kept opaque). */
  datatype JsValue = JsString(s: string) | JsOther(tag: nat)

  /** capitalizeFirst: first character upper-cased, the rest lower-cased; falsy or non-string values unchanged. */
  function CapitalizeFirst(v: JsValue): (r: JsValue)
    ensures !v.JsString? || v.s == "" ==> r == v
    ensures v.JsString? && v.s != "" ==>
      r.JsString? && |r.s| == |v.s| && r.s[0] == UpperChar(v.s[0]) && r.s[1..] == Lower(v.s[1..])
  {
    if !v.JsString? || v.s == "" then v
    else JsString([UpperChar(v.s[0])] + Lower(v.s[1..]))
  }

  lemma UpperCharIdempotent(c: char)
    ensures UpperChar(UpperChar(c)) == UpperChar(c)
  {
  }

  /** Capitalizing an already capitalized value changes nothing. */
  lemma CapitalizeFirstIdempotent(v: JsValue)
    ensures CapitalizeFirst(CapitalizeFirst(v)) == CapitalizeFirst(v)
  {
    if v.JsString? && v.s != "" {
      var r := CapitalizeFirst(v);
      UpperCharIdempotent(v.s[0]);
      LowerIdempotent(v.s[1..]);
      assert CapitalizeFirst(r).s == [UpperChar(r.s[0])] + Lower(r.s[1..]);
    }
  }

  /** Only the case of the characters changes: the result is the input up to case. */
  lemma CapitalizeFirstSameLetters(v: JsValue)
    requires v.JsString?
    ensures var r := CapitalizeFirst(v);
      r.JsString? && Lower(r.s) == Lower(v.s)
  {
    var r := CapitalizeFirst(v);
    if v.s != "" {
      forall i | 0 <= i < |v.s|
        ensures Lower(r.s)[i] == Lower(v.s)[i]
      {
        if i == 0 {
          assert LowerChar(UpperChar(v.s[0])) == LowerChar(v.s[0]);
        } else {
          assert r.s[i] == Lower(v.s[1..])[i - 1];
          LowerCharIdempotent(v.s[i]);
        }
      }
    }
  }
}
