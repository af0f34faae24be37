/**
 * The Groq text-to-speech plugin: the text segmentation that runs before
 * synthesis, the WAV header strip, the 20 ms chunking of the PCM stream with
 * its one-shot first-audio callback, and the constructor's validation and the
 * interrupt/close flags. The HTTP request itself is not part of this model.
 */
module GroqTts {
  import opened Wrappers
  import opened Strings
  import opened Seqs
  import opened Sentences
  import opened Chunking
  import CvEstimator

  const GroqSampleRate := 24000
  const GroqChannels := 1
  const DefaultModel := "playai-tts"
  const DefaultVoice := "Fritz-PlayAI"
  const DefaultMaxLength := 200

  /** The length of a canonical RIFF/WAVE header. */
  const WavHeaderBytes := 44

  /** 20 ms of 16-bit mono audio at 24 kHz: 24000 * 1 channel * 2 bytes * 20 / 1000. */
  const ChunkBytes: nat := 960

  /** The sample rates the plugin accepts (each maps to itself). */
  predicate IsSupportedRate(rate: int)
  {
    rate == 8000 || rate == 16000 || rate == 22050 || rate == 24000 || rate == 32000 || rate == 44100 || rate == 48000
  }

  // ---- simple_segment_text ----

  /** The sentence after the open segment, joined to it by a space when the open segment is not empty. */
  function JoinNext(current: string, s: string): string
  {
    if current != "" then current + " " + s else s
  }

  /** The closed segments after closing the open one; an empty open segment is dropped. */
  function CloseOpen(current: string, segments: seq<string>): seq<string>
  {
    if current != "" then segments + [current] else segments
  }

  /**
   * The merge of sentences into segments, as a state machine: current is the
   * open segment, segments the closed ones. A sentence joins the open segment
   * when the join with a space fits in maxLength, otherwise it opens a new
   * segment; an empty open segment is never closed.
   */
  function Merge(rest: seq<string>, current: string, segments: seq<string>, maxLength: int): seq<string>
    decreases |rest|
  {
    if rest == [] then CloseOpen(current, segments)
    else
      var s := rest[0];
      if |current + " " + s| <= maxLength then
        Merge(rest[1..], JoinNext(current, s), segments, maxLength)
      else
        Merge(rest[1..], s, CloseOpen(current, segments), maxLength)
  }

  /** What simple_segment_text returns: the non-blank merged segments of the text's sentences. */
  function SegmentText(text: string, maxLength: int): seq<string>
  {
    if PyStrip(text) == "" then [] else Filter(Merge(SentencesOf(text), "", [], maxLength), NotBlank)
  }

  /** simple_segment_text: the sentence scan, then the merge loop, then the final filter. */
  method SimpleSegmentText(text: string, maxLength: int) returns (segments: seq<string>)
    ensures segments == SegmentText(text, maxLength)
  {
    if PyStrip(text) == "" {
      return [];
    }
    var sentences := ScanSentences(text);
    var merged: seq<string> := [];
    var segment := "";
    for j := 0 to |sentences|
      invariant Merge(sentences[j..], segment, merged, maxLength) == Merge(sentences, "", [], maxLength)
    {
      assert sentences[j..][0] == sentences[j] && sentences[j..][1..] == sentences[j + 1..];
      var s := sentences[j];
      if |segment + " " + s| <= maxLength {
        segment := if segment != "" then segment + " " + s else s;
      } else {
        if segment != "" {
          merged := merged + [segment];
        }
        segment := s;
      }
    }
    assert sentences[|sentences|..] == [];
    if segment != "" {
      merged := merged + [segment];
    }
    segments := Filter(merged, NotBlank);
  }

  lemma ContentOfCons(rest: seq<string>)
    requires rest != []
    ensures ContentOf(rest) == NonSpace(rest[0]) + ContentOf(rest[1..])
  {
    assert rest == [rest[0]] + rest[1..];
    ContentOfConcat([rest[0]], rest[1..]);
    ContentOfAppend([], rest[0]);
  }

  lemma NonSpaceJoin(a: string, b: string)
    ensures NonSpace(a + " " + b) == NonSpace(a) + NonSpace(b)
  {
    NonSpaceConcat(a + " ", b);
    NonSpaceConcat(a, " ");
    assert NonSpace(" ") == "";
  }

  /** A sentence that joins the open segment adds its visible characters to it. */
  lemma JoinStepContent(current: string, s: string)
    ensures NonSpace(JoinNext(current, s)) == NonSpace(current) + NonSpace(s)
  {
    if current != "" {
      NonSpaceJoin(current, s);
    } else {
      assert current + NonSpace(s) == NonSpace(s);
    }
  }

  /** Closing the open segment moves its visible characters into the closed ones. */
  lemma CloseStepContent(current: string, segments: seq<string>)
    ensures ContentOf(CloseOpen(current, segments)) == ContentOf(segments) + NonSpace(current)
  {
    if current != "" {
      ContentOfAppend(segments, current);
    } else {
      assert NonSpace(current) == [];
    }
  }

  /** One merge step that joins the next sentence keeps the content, given that the rest of the merge does. */
  lemma JoinStep(rest: seq<string>, current: string, segments: seq<string>, maxLength: int)
    requires rest != [] && |current + " " + rest[0]| <= maxLength
    requires ContentOf(Merge(rest[1..], JoinNext(current, rest[0]), segments, maxLength))
      == ContentOf(segments) + NonSpace(JoinNext(current, rest[0])) + ContentOf(rest[1..])
    ensures ContentOf(Merge(rest, current, segments, maxLength))
      == ContentOf(segments) + NonSpace(current) + ContentOf(rest)
  {
    var next := JoinNext(current, rest[0]);
    assert Merge(rest, current, segments, maxLength) == Merge(rest[1..], next, segments, maxLength);
    var a, b, c, d := ContentOf(segments), NonSpace(current), NonSpace(rest[0]), ContentOf(rest[1..]);
    calc {
      ContentOf(Merge(rest[1..], next, segments, maxLength));
      a + NonSpace(next) + d;
      { JoinStepContent(current, rest[0]); }
      a + (b + c) + d;
      { ConcatAssoc(a, b, c); ConcatAssoc(a + b, c, d); }
      a + b + (c + d);
      { ContentOfCons(rest); }
      a + b + ContentOf(rest);
    }
  }

  /** One merge step that closes the open segment keeps the content, given that the rest of the merge does. */
  lemma CloseStep(rest: seq<string>, current: string, segments: seq<string>, maxLength: int)
    requires rest != [] && |current + " " + rest[0]| > maxLength
    requires ContentOf(Merge(rest[1..], rest[0], CloseOpen(current, segments), maxLength))
      == ContentOf(CloseOpen(current, segments)) + NonSpace(rest[0]) + ContentOf(rest[1..])
    ensures ContentOf(Merge(rest, current, segments, maxLength))
      == ContentOf(segments) + NonSpace(current) + ContentOf(rest)
  {
    var closed := CloseOpen(current, segments);
    assert Merge(rest, current, segments, maxLength) == Merge(rest[1..], rest[0], closed, maxLength);
    var a, b, c, d := ContentOf(segments), NonSpace(current), NonSpace(rest[0]), ContentOf(rest[1..]);
    calc {
      ContentOf(Merge(rest[1..], rest[0], closed, maxLength));
      ContentOf(closed) + c + d;
      { CloseStepContent(current, segments); }
      (a + b) + c + d;
      { ConcatAssoc(a + b, c, d); }
      a + b + (c + d);
      { ContentOfCons(rest); }
      a + b + ContentOf(rest);
    }
  }

  /** The merge adds only spaces: the visible characters of the segments are those of the sentences, in order. */
  lemma {:induction false} MergeContent(rest: seq<string>, current: string, segments: seq<string>, maxLength: int)
    ensures ContentOf(Merge(rest, current, segments, maxLength))
      == ContentOf(segments) + NonSpace(current) + ContentOf(rest)
    decreases |rest|
  {
    if rest == [] {
      CloseStepContent(current, segments);
    } else if |current + " " + rest[0]| <= maxLength {
      MergeContent(rest[1..], JoinNext(current, rest[0]), segments, maxLength);
      JoinStep(rest, current, segments, maxLength);
    } else {
      MergeContent(rest[1..], rest[0], CloseOpen(current, segments), maxLength);
      CloseStep(rest, current, segments, maxLength);
    }
  }

  /** Segmentation keeps every visible character of the text, in order; only whitespace changes. */
  lemma SegmentKeepsContent(text: string, maxLength: int)
    ensures ContentOf(SegmentText(text, maxLength)) == NonSpace(text)
  {
    if PyStrip(text) == "" {
      PyStripEmptyIffNoContent(text);
    } else {
      var merged := Merge(SentencesOf(text), "", [], maxLength);
      MergeContent(SentencesOf(text), "", [], maxLength);
      SentencesKeepContent(text);
      ContentOfFilterBlank(merged);
    }
  }

  /** The text yields no segment exactly when it is blank, and no segment is blank. */
  lemma SegmentEmptyIffBlank(text: string, maxLength: int)
    ensures SegmentText(text, maxLength) == [] <==> PyStrip(text) == ""
    ensures forall k :: 0 <= k < |SegmentText(text, maxLength)| ==> PyStrip(SegmentText(text, maxLength)[k]) != ""
  {
    SegmentKeepsContent(text, maxLength);
    PyStripEmptyIffNoContent(text);
  }

  /** A segment is short enough, or it is one whole sentence. */
  predicate Fits(segment: string, maxLength: int, sentences: seq<string>)
  {
    |segment| <= maxLength || segment in sentences
  }

  lemma {:induction false} MergeFits(rest: seq<string>, current: string, segments: seq<string>, maxLength: int,
                                      sentences: seq<string>)
    requires forall k :: 0 <= k < |rest| ==> rest[k] in sentences
    requires current == "" || Fits(current, maxLength, sentences)
    requires forall k :: 0 <= k < |segments| ==> Fits(segments[k], maxLength, sentences)
    ensures forall k :: 0 <= k < |Merge(rest, current, segments, maxLength)| ==>
      Fits(Merge(rest, current, segments, maxLength)[k], maxLength, sentences)
    decreases |rest|
  {
    if rest != [] {
      var s := rest[0];
      assert s in sentences;
      assert forall k :: 0 <= k < |rest[1..]| ==> rest[1..][k] == rest[k + 1];
      if |current + " " + s| <= maxLength {
        MergeFits(rest[1..], JoinNext(current, s), segments, maxLength, sentences);
      } else {
        var closed := CloseOpen(current, segments);
        assert forall k :: 0 <= k < |closed| ==> Fits(closed[k], maxLength, sentences);
        MergeFits(rest[1..], s, closed, maxLength, sentences);
      }
    }
  }

  /**
   * Every segment longer than maxLength is a single sentence of the text,
   * left unsplit: a join of two or more sentences always fits.
   */
  lemma SegmentsFit(text: string, maxLength: int)
    ensures forall k :: 0 <= k < |SegmentText(text, maxLength)| ==>
      |SegmentText(text, maxLength)[k]| <= maxLength || SegmentText(text, maxLength)[k] in SentencesOf(text)
  {
    if PyStrip(text) != "" {
      var sentences := SentencesOf(text);
      MergeFits(sentences, "", [], maxLength, sentences);
      var merged := Merge(sentences, "", [], maxLength);
      var r := Filter(merged, NotBlank);
      forall k | 0 <= k < |r| ensures Fits(r[k], maxLength, sentences) {
        assert r[k] in merged;
      }
    }
  }

  // ---- _extract_pcm_from_wav ----

  /** The PCM samples of a WAV file: nothing for input shorter than the header, else all after it. */
  function ExtractPcmFromWav(wav: seq<bv8>): (r: seq<bv8>)
    ensures |wav| < WavHeaderBytes ==> r == []
    ensures |wav| >= WavHeaderBytes ==> wav == wav[..WavHeaderBytes] + r
  {
    if |wav| < WavHeaderBytes then [] else wav[WavHeaderBytes..]
  }

  /** Stripping a 44-byte header gives back exactly the samples that followed it. */
  lemma PcmAfterHeader(header: seq<bv8>, pcm: seq<bv8>)
    requires |header| == WavHeaderBytes
    ensures ExtractPcmFromWav(header + pcm) == pcm
  {
    assert (header + pcm)[WavHeaderBytes..] == pcm;
  }

  // ---- the plugin ----

  datatype TtsError = InvalidSampleRate(rate: int) | InvalidSpeed | MissingApiKey

  class GroqTtsFixed {
    var model: string
    var voice: string
    var speed: real
    var responseFormat: string
    var apiKey: string
    var groqSampleRate: int
    var interrupted: bool
    var closed: bool
    var firstChunkSent: bool
    /** Whether the framework registered a first-audio callback. */
    var hasFirstAudioCallback: bool
    /** How often the first-audio callback ran since the last reset. */
    var callbacksSinceReset: nat
    /** The chunks handed to the audio track, in order. */
    var sent: seq<seq<bv8>>

    /** The first-audio callback ran exactly when the first chunk was marked sent: at most once per reset. */
    predicate Valid()
      reads this
    {
      callbacksSinceReset == (if firstChunkSent then 1 else 0) && IsSupportedRate(groqSampleRate) && apiKey != ""
    }

    constructor(model: string, voice: string, speed: real, responseFormat: string, apiKey: string, sampleRate: int)
      requires IsSupportedRate(sampleRate) && apiKey != ""
      ensures Valid()
      ensures this.model == model && this.voice == voice && this.speed == speed
      ensures this.responseFormat == responseFormat && this.apiKey == apiKey && groqSampleRate == sampleRate
      ensures !interrupted && !closed && !firstChunkSent && !hasFirstAudioCallback && sent == []
    {
      this.model := model;
      this.voice := voice;
      this.speed := speed;
      this.responseFormat := responseFormat;
      this.apiKey := apiKey;
      groqSampleRate := sampleRate;
      interrupted := false;
      closed := false;
      firstChunkSent := false;
      hasFirstAudioCallback := false;
      callbacksSinceReset := 0;
      sent := [];
    }

    /**
     * _stream_audio_chunks: nothing once interrupted or closed; otherwise the
     * audio goes out in 960-byte chunks, the last one zero-padded, and the
     * first-audio callback runs before the first chunk unless it already ran.
     */
    method StreamAudioChunks(audio: seq<bv8>)
      requires Valid()
      modifies this`sent, this`firstChunkSent, this`callbacksSinceReset
      ensures Valid()
      ensures old(interrupted || closed) ==> sent == old(sent) && firstChunkSent == old(firstChunkSent)
      ensures !old(interrupted || closed) ==> sent == old(sent) + PadChunks(audio, ChunkBytes, 0)
      ensures !old(interrupted || closed) ==>
        firstChunkSent == (old(firstChunkSent) || (hasFirstAudioCallback && audio != []))
    {
      if interrupted || closed {
        return;
      }
      var i := 0;
      while i < |audio|
        invariant Valid()
        invariant old(sent) + PadChunks(audio, ChunkBytes, 0) == sent + RemainingChunks(audio, ChunkBytes, 0, i)
        invariant i > 0 ==> audio != []
        invariant firstChunkSent == (old(firstChunkSent) || (hasFirstAudioCallback && i > 0))
        decreases |audio| - i
      {
        var end := if i + ChunkBytes <= |audio| then i + ChunkBytes else |audio|;
        var chunk := audio[i..end];
        if |chunk| < ChunkBytes && |chunk| > 0 {
          chunk := chunk + Repeat(0, ChunkBytes - |chunk|);
        }
        if !firstChunkSent && hasFirstAudioCallback {
          firstChunkSent := true;
          callbacksSinceReset := callbacksSinceReset + 1;
        }
        assert chunk == ChunkAt(audio, ChunkBytes, 0, i);
        EmitStep(old(sent) + PadChunks(audio, ChunkBytes, 0), sent, audio, ChunkBytes, 0, i);
        sent := sent + [chunk];
        i := i + ChunkBytes;
      }
      assert RemainingChunks(audio, ChunkBytes, 0, i) == [];
    }

    /** reset_first_audio_tracking: the next chunk may run the callback again. */
    method ResetFirstAudioTracking()
      requires Valid()
      modifies this`firstChunkSent, this`callbacksSinceReset
      ensures Valid() && !firstChunkSent && callbacksSinceReset == 0
    {
      firstChunkSent := false;
      callbacksSinceReset := 0;
    }

    /** interrupt: later streaming sends nothing. */
    method Interrupt()
      requires Valid()
      modifies this`interrupted
      ensures Valid() && interrupted
    {
      interrupted := true;
    }

    /** aclose: both flags are set, so nothing is streamed any more. */
    method Aclose()
      requires Valid()
      modifies this`interrupted, this`closed
      ensures Valid() && interrupted && closed
    {
      interrupted := true;
      closed := true;
    }
  }

  /**
   * The constructor's validation, in the order the constructor checks: the sample rate,
   * then the speed range, then the key (the argument, else the environment).
   */
  function CheckConfig(sampleRate: int, speed: real, apiKey: Option<string>, envKey: Option<string>)
    : (r: Result<string, TtsError>)
    ensures r.Ok? <==> IsSupportedRate(sampleRate) && 0.5 <= speed <= 5.0 && CvEstimator.ApiKey(apiKey, envKey).Some?
    ensures !IsSupportedRate(sampleRate) ==> r == Err(InvalidSampleRate(sampleRate))
    ensures IsSupportedRate(sampleRate) && !(0.5 <= speed <= 5.0) ==> r == Err(InvalidSpeed)
    ensures r.Ok? ==> r.value != "" && Some(r.value) == CvEstimator.ApiKey(apiKey, envKey)
  {
    if !IsSupportedRate(sampleRate) then Err(InvalidSampleRate(sampleRate))
    else if !(0.5 <= speed <= 5.0) then Err(InvalidSpeed)
    else match CvEstimator.ApiKey(apiKey, envKey)
      case None => Err(MissingApiKey)
      case Some(key) => Ok(key)
  }

  /** GroqTTSFixed(...): the plugin, or the ValueError the validation raises. */
  method NewGroqTts(model: string, voice: string, speed: real, responseFormat: string, sampleRate: int,
                    apiKey: Option<string>, envKey: Option<string>) returns (r: Result<GroqTtsFixed, TtsError>)
    ensures r.Err? <==> CheckConfig(sampleRate, speed, apiKey, envKey).Err?
    ensures r.Err? ==> r.error == CheckConfig(sampleRate, speed, apiKey, envKey).error
    ensures r.Ok? ==> fresh(r.value) && r.value.Valid() && !r.value.firstChunkSent && r.value.sent == []
    ensures r.Ok? ==> r.value.groqSampleRate == sampleRate && Some(r.value.apiKey) == CvEstimator.ApiKey(apiKey, envKey)
  {
    match CheckConfig(sampleRate, speed, apiKey, envKey)
    case Err(e) =>
      return Err(e);
    case Ok(key) =>
      var tts := new GroqTtsFixed(model, voice, speed, responseFormat, key, sampleRate);
      return Ok(tts);
  }
}
