/**
 * The character-by-character sentence scanner that the text-to-speech code
 * runs before synthesis: a sentence ends after '.', '!', '?' or a newline and
 * is stored stripped; a non-blank remainder becomes the last sentence.
 */
module Sentences {
  import opened Strings
  import opened Seqs

  predicate IsTerminator(c: char) { c == '.' || c == '!' || c == '?' || c == '\n' }

  /**
   * The scanner's state machine: rest is the text still to read, current the
   * open sentence, acc the sentences closed so far.
   */
  function Scan(rest: string, current: string, acc: seq<string>): seq<string>
    decreases |rest|
  {
    if rest == [] then
      if PyStrip(current) != "" then acc + [PyStrip(current)] else acc
    else if IsTerminator(rest[0]) then
      Scan(rest[1..], "", acc + [PyStrip(current + [rest[0]])])
    else
      Scan(rest[1..], current + [rest[0]], acc)
  }

  /** The sentences of text, in order; some may be empty (a newline after only whitespace). */
  function SentencesOf(text: string): seq<string>
  {
    Scan(text, "", [])
  }

  /** The visible (non-whitespace) characters of a list of strings, in order. */
  function ContentOf(parts: seq<string>): string
  {
    if parts == [] then "" else ContentOf(parts[..|parts| - 1]) + NonSpace(parts[|parts| - 1])
  }

  lemma ContentOfAppend(parts: seq<string>, x: string)
    ensures ContentOf(parts + [x]) == ContentOf(parts) + NonSpace(x)
  {
    assert (parts + [x])[..|parts|] == parts;
  }

  lemma {:induction false} ContentOfConcat(a: seq<string>, b: seq<string>)
    ensures ContentOf(a + b) == ContentOf(a) + ContentOf(b)
    decreases |b|
  {
    if b == [] {
      assert a + b == a;
    } else {
      var b', x := b[..|b| - 1], b[|b| - 1];
      assert b == b' + [x];
      assert a + b == (a + b') + [x];
      calc {
        ContentOf(a + b);
        ContentOf((a + b') + [x]);
        { ContentOfAppend(a + b', x); }
        ContentOf(a + b') + NonSpace(x);
        { ContentOfConcat(a, b'); }
        ContentOf(a) + (ContentOf(b') + NonSpace(x));
        { ContentOfAppend(b', x); }
        ContentOf(a) + ContentOf(b);
      }
    }
  }

  /** Removing blank strings from a list keeps its visible content. */
  lemma {:induction false} ContentOfFilterBlank(parts: seq<string>)
    ensures ContentOf(Filter(parts, NotBlank)) == ContentOf(parts)
    decreases |parts|
  {
    if parts != [] {
      var x := parts[0];
      ContentOfFilterBlank(parts[1..]);
      assert parts == [x] + parts[1..];
      ContentOfConcat([x], parts[1..]);
      ContentOfAppend([], x);
      PyStripEmptyIffNoContent(x);
      var head := if NotBlank(x) then [x] else [];
      assert Filter(parts, NotBlank) == head + Filter(parts[1..], NotBlank);
      ContentOfConcat(head, Filter(parts[1..], NotBlank));
      if NotBlank(x) {
        assert head == [] + [x];
      }
    }
  }

  /** Python's `if s.strip()`. */
  predicate NotBlank(s: string) { PyStrip(s) != "" }

  lemma ScanContentEnd(current: string, acc: seq<string>)
    ensures ContentOf(Scan("", current, acc)) == ContentOf(acc) + NonSpace(current)
  {
    NonSpaceStrip(current);
    PyStripEmptyIffNoContent(current);
    ContentOfAppend(acc, PyStrip(current));
  }

  lemma CloseContent(current: string, c: char, tail: string, acc: seq<string>)
    ensures ContentOf(acc + [PyStrip(current + [c])]) + NonSpace(tail) == ContentOf(acc) + NonSpace(current + [c] + tail)
  {
    ContentOfAppend(acc, PyStrip(current + [c]));
    NonSpaceStrip(current + [c]);
    NonSpaceConcat(current + [c], tail);
  }

  lemma {:induction false} ScanContent(rest: string, current: string, acc: seq<string>)
    ensures ContentOf(Scan(rest, current, acc)) == ContentOf(acc) + NonSpace(current + rest)
    decreases |rest|
  {
    if rest == [] {
      ScanContentEnd(current, acc);
      assert current + rest == current;
    } else {
      var c, tail := rest[0], rest[1..];
      assert current + rest == current + [c] + tail;
      if IsTerminator(c) {
        ScanContent(tail, "", acc + [PyStrip(current + [c])]);
        assert "" + tail == tail;
        CloseContent(current, c, tail, acc);
      } else {
        ScanContent(tail, current + [c], acc);
      }
    }
  }

  /** Splitting into sentences loses no visible character and keeps their order. */
  lemma SentencesKeepContent(text: string)
    ensures ContentOf(SentencesOf(text)) == NonSpace(text)
  {
    ScanContent(text, "", []);
    assert "" + text == text;
  }

  predicate AllStripped(parts: seq<string>)
  {
    forall i :: 0 <= i < |parts| ==> PyStrip(parts[i]) == parts[i]
  }

  lemma StrippedAppend(acc: seq<string>, raw: string)
    requires AllStripped(acc)
    ensures AllStripped(acc + [PyStrip(raw)])
  {
    var x := PyStrip(raw);
    assert PyStrip(x) == x by { TrimIdempotent(raw, IsPySpace); }
    forall i | 0 <= i < |acc| + 1 ensures PyStrip((acc + [x])[i]) == (acc + [x])[i] {
      if i < |acc| { assert (acc + [x])[i] == acc[i]; }
    }
  }

  lemma {:induction false} ScanStripped(rest: string, current: string, acc: seq<string>)
    requires AllStripped(acc)
    ensures AllStripped(Scan(rest, current, acc))
    decreases |rest|
  {
    if rest == [] {
      StrippedAppend(acc, current);
    } else if IsTerminator(rest[0]) {
      StrippedAppend(acc, current + [rest[0]]);
      ScanStripped(rest[1..], "", acc + [PyStrip(current + [rest[0]])]);
    } else {
      ScanStripped(rest[1..], current + [rest[0]], acc);
    }
  }

  /** Every sentence is stored without surrounding whitespace. */
  lemma SentencesStripped(text: string)
    ensures AllStripped(SentencesOf(text))
  {
    ScanStripped(text, "", []);
  }

  /** The scanning loop itself: one character at a time, closing a sentence after each terminator. */
  method ScanSentences(text: string) returns (sentences: seq<string>)
    ensures sentences == SentencesOf(text)
  {
    sentences := [];
    var current := "";
    for i := 0 to |text|
      invariant Scan(text[i..], current, sentences) == SentencesOf(text)
    {
      assert text[i..][0] == text[i] && text[i..][1..] == text[i + 1..];
      var c := text[i];
      current := current + [c];
      if IsTerminator(c) {
        sentences := sentences + [PyStrip(current)];
        current := "";
      }
    }
    assert text[|text|..] == "";
    if PyStrip(current) != "" {
      sentences := sentences + [PyStrip(current)];
    }
  }
}
