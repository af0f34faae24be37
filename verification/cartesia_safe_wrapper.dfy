/**
 * The guarded Cartesia speech wrappers: the text check that keeps
 * punctuation-only or letterless text away from synthesis, and the lazily
 * created inner client that is dropped (and so created again on next use)
 * after a connection error, a recognition error or a close. The inner
 * clients are represented by whether they exist and by what was handed to
 * them; their own work and failures are parameters.
 */
module CartesiaSafeWrapper {
  import opened Wrappers
  import opened Strings
  import opened Seqs

  // ---- is_text_valid_for_tts ----

  predicate IsAsciiLetter(c: char) { 'a' <= c <= 'z' || 'A' <= c <= 'Z' }

  /** The letters of the class [a-zA-Zа-яА-ЯёЁ]. */
  predicate IsLetter(c: char)
  {
    IsAsciiLetter(c) || 'а' <= c <= 'я' || 'А' <= c <= 'Я' || c == 'ё' || c == 'Ё'
  }

  /**
   * The word characters of `\w` as far as this model knows them: Latin and
   * Cyrillic letters, ASCII digits and the underscore.
   */
  predicate IsWordChar(c: char)
  {
    IsAsciiLetter(c) || '0' <= c <= '9' || c == '_' || 'Ѐ' <= c <= 'ӿ'
  }

  predicate IsWordOrSpace(c: char) { IsWordChar(c) || IsPySpace(c) }

  /** `re.sub(r'[^\w\s]', '', s)`: only word characters and whitespace stay. */
  function RemovePunctuation(s: string): (r: string)
    ensures |r| <= |s|
    ensures forall k :: 0 <= k < |r| ==> IsWordChar(r[k]) || IsPySpace(r[k])
  {
    Filter(s, IsWordOrSpace)
  }

  /** `re.sub(r'\s+', '', s)`: whitespace removed. */
  function RemoveSpace(s: string): (r: string)
    ensures forall k :: 0 <= k < |r| ==> !IsPySpace(r[k])
  {
    Filter(s, IsVisible)
  }

  predicate HasLetter(s: string)
  {
    exists k :: 0 <= k < |s| && IsLetter(s[k])
  }

  /** is_text_valid_for_tts, step by step in its own order. */
  predicate IsTextValidForTts(text: string)
  {
    if text == "" || PyStrip(text) == "" then false
    else
      var clean := PyStrip(text);
      if |clean| < 2 then false
      else
        var bare := RemoveSpace(RemovePunctuation(clean));
        if bare == "" then false
        else HasLetter(bare)
  }

  /** A letter survives both removals. */
  lemma {:induction false} LetterKept(s: string, k: nat)
    requires k < |s| && IsLetter(s[k])
    ensures HasLetter(RemoveSpace(RemovePunctuation(s)))
  {
    var p := RemovePunctuation(s);
    assert s[k] in p;
    var j :| 0 <= j < |p| && p[j] == s[k];
    assert p[j] in RemoveSpace(p);
  }

  /** Whatever survives the removals is a character of the text. */
  lemma LetterFrom(s: string)
    requires HasLetter(RemoveSpace(RemovePunctuation(s)))
    ensures HasLetter(s)
  {
    var b := RemoveSpace(RemovePunctuation(s));
    var k :| 0 <= k < |b| && IsLetter(b[k]);
    assert b[k] in RemovePunctuation(s);
    assert b[k] in s;
  }

  /** A letter is a visible character, so dropping whitespace keeps every letter. */
  lemma LettersVisible(s: string)
    ensures HasLetter(NonSpace(s)) <==> HasLetter(s)
  {
    if HasLetter(s) {
      var k :| 0 <= k < |s| && IsLetter(s[k]);
      assert IsVisible(s[k]);
      assert s[k] in NonSpace(s);
    }
    if HasLetter(NonSpace(s)) {
      var k :| 0 <= k < |NonSpace(s)| && IsLetter(NonSpace(s)[k]);
      assert NonSpace(s)[k] in s;
    }
  }

  /** The letters of the stripped text are the letters of the text. */
  lemma StripKeepsLetters(text: string)
    ensures HasLetter(PyStrip(text)) <==> HasLetter(text)
  {
    NonSpaceStrip(text);
    LettersVisible(text);
    LettersVisible(PyStrip(text));
  }

  /** The check, stated on the stripped text. */
  lemma ValidOnStripped(text: string)
    ensures IsTextValidForTts(text) <==>
      |PyStrip(text)| >= 2 && HasLetter(RemoveSpace(RemovePunctuation(PyStrip(text))))
  {
  }

  /** A letter in the stripped text survives the removals. */
  lemma StrippedLetterKept(clean: string)
    requires HasLetter(clean)
    ensures HasLetter(RemoveSpace(RemovePunctuation(clean)))
  {
    var k :| 0 <= k < |clean| && IsLetter(clean[k]);
    LetterKept(clean, k);
  }

  /**
   * Valid text is exactly text whose stripped form has at least two
   * characters and which holds at least one Latin or Cyrillic letter:
   * punctuation-only, digit-only and one-character text is refused.
   */
  lemma ValidIff(text: string)
    ensures IsTextValidForTts(text) <==> |PyStrip(text)| >= 2 && HasLetter(text)
  {
    var clean := PyStrip(text);
    ValidOnStripped(text);
    StripKeepsLetters(text);
    if HasLetter(text) {
      StrippedLetterKept(clean);
    }
    if HasLetter(RemoveSpace(RemovePunctuation(clean))) {
      LetterFrom(clean);
    }
  }

  /** Whitespace-only text is refused. */
  lemma BlankRefused()
    ensures !IsTextValidForTts("   ")
  {
    TrimEmptyIffAllSpace("   ", IsPySpace);
  }

  /** Punctuation-only text is refused: it holds no letter. */
  lemma PunctuationRefused()
    ensures !IsTextValidForTts("?!...")
  {
    var text := "?!...";
    forall k | 0 <= k < |text|
      ensures !IsLetter(text[k])
    {
      assert text[k] == '?' || text[k] == '!' || text[k] == '.';
    }
    NoLetterRefused(text);
  }

  /** Digit-only text is refused: it holds no letter. */
  lemma DigitsRefused()
    ensures !IsTextValidForTts("2024")
  {
    var digits := "2024";
    assert forall k :: 0 <= k < |digits| ==> '0' <= digits[k] <= '9';
    NoLetterRefused(digits);
  }

  /** Text without a Latin or Cyrillic letter is refused, whatever else it holds. */
  lemma NoLetterRefused(text: string)
    requires forall k :: 0 <= k < |text| ==> !IsLetter(text[k])
    ensures !IsTextValidForTts(text)
  {
    ValidIff(text);
  }

  /** A two-letter Cyrillic word passes. */
  lemma WordAccepted()
    ensures IsTextValidForTts("Да")
  {
    ValidIff("Да");
    assert IsLetter("Да"[0]);
    PyStripNoop("Да");
  }

  /** The input of synthesize: a whole string, or the chunks of a stream that are joined first. */
  datatype TextInput = Whole(text: string) | Stream(chunks: seq<string>)

  function FullText(input: TextInput): string
  {
    match input
    case Whole(text) => text
    case Stream(chunks) => Flatten(chunks)
  }

  /** An error that makes the wrapper drop its inner client. */
  predicate IsConnectionError(message: string)
  {
    Contains(message, "Concurrent call") || Contains(message, "WebSocket")
  }

  // ---- SafeCartesiaTTSWrapper ----

  class SafeCartesiaTtsWrapper {
    var initialized: bool
    /** Whether the inner client exists (`_tts is not None`). */
    var hasClient: bool
    /** The texts handed to the inner client, in order. */
    var delegated: seq<string>

    /** The wrapper counts as initialized exactly while it holds a client. */
    predicate Valid()
      reads this
    {
      initialized == hasClient
    }

    constructor()
      ensures Valid() && !initialized && delegated == []
    {
      initialized := false;
      hasClient := false;
      delegated := [];
    }

    /** _ensure_initialized: creates the client when there is none; a failed creation raises and changes nothing. */
    method EnsureInitialized(creationFails: bool) returns (ok: bool)
      requires Valid()
      modifies this`initialized, this`hasClient
      ensures Valid()
      ensures ok <==> old(initialized) || !creationFails
      ensures initialized == ok
    {
      if !initialized {
        if creationFails {
          return false;
        }
        hasClient := true;
        initialized := true;
      }
      return true;
    }

    /**
     * _safe_synthesize: invalid text returns quietly without reaching the
     * client; valid text is handed over, and an error from the client is
     * raised again after dropping the client when it is a connection error.
     */
    method SafeSynthesize(input: TextInput, failure: Option<string>) returns (r: Result<(), string>)
      requires Valid() && initialized
      modifies this`initialized, this`hasClient, this`delegated
      ensures Valid()
      ensures !IsTextValidForTts(FullText(input)) ==> r.Ok? && delegated == old(delegated) && initialized
      ensures IsTextValidForTts(FullText(input)) ==> delegated == old(delegated) + [FullText(input)]
      ensures IsTextValidForTts(FullText(input)) ==> (r.Err? <==> failure.Some?)
      ensures r.Err? ==> r.error == failure.value && (initialized <==> !IsConnectionError(failure.value))
      ensures r.Ok? ==> initialized
    {
      var fullText := FullText(input);
      if !IsTextValidForTts(fullText) {
        return Ok(());
      }
      delegated := delegated + [fullText];
      if failure.Some? {
        if IsConnectionError(failure.value) {
          initialized := false;
          hasClient := false;
        }
        return Err(failure.value);
      }
      return Ok(());
    }

    /** synthesize: initialize, then the guarded synthesis. */
    method Synthesize(input: TextInput, creationFails: bool, failure: Option<string>) returns (r: Result<(), string>)
      requires Valid()
      modifies this`initialized, this`hasClient, this`delegated
      ensures Valid()
      ensures !old(initialized) && creationFails ==> r.Err? && delegated == old(delegated) && !initialized
      ensures !IsTextValidForTts(FullText(input)) ==> delegated == old(delegated)
      ensures old(initialized) || !creationFails ==>
        (IsTextValidForTts(FullText(input)) ==>
          delegated == old(delegated) + [FullText(input)] && (r.Err? <==> failure.Some?)) &&
        (!IsTextValidForTts(FullText(input)) ==> r.Ok? && initialized) &&
        (r.Err? ==> failure.Some? && r.error == failure.value && (initialized <==> !IsConnectionError(failure.value)))
    {
      var ok := EnsureInitialized(creationFails);
      if !ok {
        return Err("initialization failed");
      }
      r := SafeSynthesize(input, failure);
    }

    /** aclose: the client is closed and dropped. */
    method Aclose()
      modifies this`initialized, this`hasClient
      ensures Valid() && !initialized && !hasClient
    {
      initialized := false;
      hasClient := false;
    }
  }

  // ---- SafeCartesiaSTTWrapper ----

  class SafeCartesiaSttWrapper {
    var language: string
    var initialized: bool
    var hasClient: bool
    /** The frames handed to the inner client with the language they were sent in. */
    var forwarded: seq<(seq<bv8>, string)>

    predicate Valid()
      reads this
    {
      initialized == hasClient
    }

    constructor(language: string)
      ensures Valid() && !initialized && this.language == language && forwarded == []
    {
      this.language := language;
      initialized := false;
      hasClient := false;
      forwarded := [];
    }

    /**
     * process_audio: initialize, then hand the frames over in the given
     * language (or the wrapper's own when none is given); any error from the
     * client drops it and is raised again.
     */
    method ProcessAudio(frames: seq<bv8>, requested: Option<string>, creationFails: bool, failure: Option<string>)
      returns (r: Result<(), string>)
      requires Valid()
      modifies this`initialized, this`hasClient, this`forwarded
      ensures Valid()
      ensures !old(initialized) && creationFails ==> r.Err? && forwarded == old(forwarded) && !initialized
      ensures old(initialized) || !creationFails ==>
        forwarded == old(forwarded) + [(frames, if requested.Some? && requested.value != "" then requested.value else language)]
        && (r.Err? <==> failure.Some?) && (initialized <==> failure.None?)
    {
      if !initialized {
        if creationFails {
          return Err("initialization failed");
        }
        hasClient := true;
        initialized := true;
      }
      var processLanguage := if requested.Some? && requested.value != "" then requested.value else language;
      forwarded := forwarded + [(frames, processLanguage)];
      if failure.Some? {
        initialized := false;
        hasClient := false;
        return Err(failure.value);
      }
      return Ok(());
    }

    /** aclose: the client is closed and dropped. */
    method Aclose()
      modifies this`initialized, this`hasClient
      ensures Valid() && !initialized && !hasClient
    {
      initialized := false;
      hasClient := false;
    }
  }
}
