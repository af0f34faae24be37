/**
 * The local speech pipeline's wrappers: the streaming transcriber's voice
 * activity detection, buffering and phrase filtering, and the speech
 * synthesizer's sentence split, length limit, 20 ms chunking and stress
 * marking guard. The recognition and synthesis models are parameters.
 */
module MainLocal {
  import opened Wrappers
  import opened Strings
  import opened Seqs
  import opened Sentences
  import opened Chunking

  const InputSampleRate := 48000
  /** A buffer larger than 1 MiB is dropped instead of transcribed. */
  const MaxBufferBytes := 1024 * 1024
  /** The chunk length the streaming recognizer expects: 300 ms at 8 kHz. */
  const ToneChunkSamples := 2400
  const MinPhraseLength := 2
  const MaxPhraseLength := 500
  const MaxSynthesisChars := 1000

  // ---- 16-bit samples ----

  /** The signed little-endian 16-bit sample that starts at byte 2k. */
  function Int16At(b: seq<bv8>, k: nat): (r: int)
    requires 2 * k + 1 < |b|
    ensures -32768 <= r < 32768
  {
    var u := b[2 * k] as int + 256 * (b[2 * k + 1] as int);
    if u >= 32768 then u - 65536 else u
  }

  /** The samples of a byte buffer of even length (np.frombuffer with dtype int16). */
  function Samples(b: seq<bv8>): (r: seq<int>)
    requires |b| % 2 == 0
    ensures |r| == |b| / 2
  {
    seq(|b| / 2, k requires 0 <= k < |b| / 2 => Int16At(b, k))
  }

  /** The magnitude of a sample. */
  function Magnitude(x: int): nat
  {
    if x < 0 then -x else x
  }

  /** np.abs on int16: the magnitude, except that -32768 has none in 16 bits and stays -32768. */
  function Int16Abs(x: int): (r: int)
    ensures x != -32768 ==> r == Magnitude(x)
    ensures x == -32768 ==> r < 0
  {
    if x == -32768 then -32768 else Magnitude(x)
  }

  /**
   * _is_silent as written: an empty frame, or one whose length is not a
   * whole number of samples (the decoding error is caught), is silent;
   * otherwise the frame is silent when np.abs of every sample is below the
   * threshold.
   */
  predicate IsSilentAsWritten(frame: seq<bv8>, threshold: int)
    ensures threshold > 32768 ==> IsSilentAsWritten(frame, threshold)
    ensures IsSilent(frame, threshold) ==> IsSilentAsWritten(frame, threshold)
  {
    frame == [] || |frame| % 2 != 0 || forall k :: 0 <= k < |frame| / 2 ==> Int16Abs(Int16At(frame, k)) < threshold
  }

  /** _is_silent as intended: every sample's true magnitude is below the threshold. */
  predicate IsSilent(frame: seq<bv8>, threshold: int)
    ensures threshold > 32768 ==> IsSilent(frame, threshold)
    ensures threshold <= 0 ==> (IsSilent(frame, threshold) <==> frame == [] || |frame| % 2 != 0)
  {
    if frame == [] || |frame| % 2 != 0 then true
    else
      assert Magnitude(Int16At(frame, 0)) >= 0;
      forall k :: 0 <= k < |frame| / 2 ==> Magnitude(Int16At(frame, k)) < threshold
  }

  /**
   * The wrap in np.abs makes a full-scale negative sample look quiet: the
   * frame holding the one sample -32768 passes as silent under the default
   * threshold int(0.01 * 32767) = 327.
   */
  lemma LoudFrameCountedSilent()
    ensures IsSilentAsWritten([0x00, 0x80], 327)
    ensures !IsSilent([0x00, 0x80], 327)
  {
    assert Int16At([0x00, 0x80], 0) == -32768;
  }

  /** The two only differ on frames that hold the sample -32768. */
  lemma SilenceDefinitionsAgree(frame: seq<bv8>, threshold: int)
    ensures IsSilentAsWritten(frame, threshold) && !IsSilent(frame, threshold) ==>
      exists k :: 0 <= k < |frame| / 2 && Int16At(frame, k) == -32768
  {
    if IsSilentAsWritten(frame, threshold) && !IsSilent(frame, threshold) {
      var k :| 0 <= k < |frame| / 2 && Magnitude(Int16At(frame, k)) >= threshold;
      assert Int16At(frame, k) == -32768;
    }
  }

  // ---- transcription ----

  /** The streaming recognizer: the phrases it returns for one chunk of samples. */
  type Transcriber = seq<int> -> seq<string>

  /** The phrases of all chunks, in chunk order. */
  function TranscribeAll(transcribe: Transcriber, chunks: seq<seq<int>>): seq<string>
  {
    if chunks == [] then [] else transcribe(chunks[0]) + TranscribeAll(transcribe, chunks[1..])
  }

  /** A phrase's text is forwarded, stripped, when a callback listens and its length is 2..500. */
  function Keep(phrase: string, hasCallback: bool): seq<string>
  {
    var text := PyStrip(phrase);
    if phrase != "" && hasCallback && MinPhraseLength <= |text| <= MaxPhraseLength then [text] else []
  }

  /** The texts the phrase loop forwards, in order. */
  function Forward(phrases: seq<string>, hasCallback: bool): (r: seq<string>)
    ensures !hasCallback ==> r == []
    ensures |r| <= |phrases|
    ensures forall k :: 0 <= k < |r| ==> MinPhraseLength <= |r[k]| <= MaxPhraseLength
  {
    if phrases == [] then []
    else Forward(phrases[..|phrases| - 1], hasCallback) + Keep(phrases[|phrases| - 1], hasCallback)
  }

  /** The stripped texts of some phrases. */
  function StrippedAll(phrases: seq<string>): (r: seq<string>)
    ensures |r| == |phrases|
  {
    seq(|phrases|, k requires 0 <= k < |phrases| => PyStrip(phrases[k]))
  }

  predicate InLengthRange(text: string)
  {
    MinPhraseLength <= |text| <= MaxPhraseLength
  }

  /** Forwarding one more phrase appends its kept text. */
  lemma ForwardStep(phrases: seq<string>, j: nat, hasCallback: bool)
    requires j < |phrases|
    ensures Forward(phrases[..j + 1], hasCallback) == Forward(phrases[..j], hasCallback) + Keep(phrases[j], hasCallback)
  {
    assert phrases[..j + 1][..j] == phrases[..j];
  }

  /** The loop step: what was forwarded, plus the next phrase's kept text, is the forwarding of one more phrase. */
  lemma ForwardAppend(start: seq<string>, done: seq<string>, phrases: seq<string>, j: nat, hasCallback: bool)
    requires j < |phrases|
    requires done == start + Forward(phrases[..j], hasCallback)
    ensures done + Keep(phrases[j], hasCallback) == start + Forward(phrases[..j + 1], hasCallback)
  {
    ForwardStep(phrases, j, hasCallback);
  }

  lemma StrippedAllAppend(init: seq<string>, last: string)
    ensures StrippedAll(init + [last]) == StrippedAll(init) + [PyStrip(last)]
  {
  }

  lemma KeepIsFilter(last: string)
    ensures Keep(last, true) == Filter([PyStrip(last)], InLengthRange)
  {
    assert [PyStrip(last)][1..] == [];
  }

  /** With a listener, the phrase loop is the stripped phrases filtered by length. */
  lemma {:induction false} ForwardIsFilter(phrases: seq<string>)
    ensures Forward(phrases, true) == Filter(StrippedAll(phrases), InLengthRange)
    decreases |phrases|
  {
    if phrases != [] {
      var init, last := phrases[..|phrases| - 1], phrases[|phrases| - 1];
      assert phrases == init + [last];
      ForwardIsFilter(init);
      StrippedAllAppend(init, last);
      FilterConcat(StrippedAll(init), [PyStrip(last)], InLengthRange);
      KeepIsFilter(last);
    }
  }

  /**
   * What one processing of the buffer forwards: nothing for an empty or
   * oversized buffer or one that is not a whole number of samples (the
   * decoding error is caught), otherwise the forwarded phrases of its
   * zero-padded 2400-sample chunks.
   */
  function Transcribed(buffer: seq<bv8>, hasCallback: bool, transcribe: Transcriber): seq<string>
  {
    if buffer == [] || |buffer| > MaxBufferBytes || |buffer| % 2 != 0 then []
    else Forward(TranscribeAll(transcribe, PadChunks(Samples(buffer), ToneChunkSamples, 0)), hasCallback)
  }

  /** Transcribing the chunk at i appends its phrases to those of the chunks before it. */
  lemma TranscribeStep(all: seq<string>, done: seq<string>, transcribe: Transcriber, samples: seq<int>, i: nat)
    requires i < |samples|
    requires all == done + TranscribeAll(transcribe, RemainingChunks(samples, ToneChunkSamples, 0, i))
    ensures all == (done + transcribe(ChunkAt(samples, ToneChunkSamples, 0, i)))
      + TranscribeAll(transcribe, RemainingChunks(samples, ToneChunkSamples, 0, i + ToneChunkSamples))
  {
    RemainingStep(samples, ToneChunkSamples, 0, i);
    var c := ChunkAt(samples, ToneChunkSamples, 0, i);
    var rest := RemainingChunks(samples, ToneChunkSamples, 0, i + ToneChunkSamples);
    assert ([c] + rest)[1..] == rest;
  }

  /** The chunk loop of _process_accumulated_audio: zero-padded 2400-sample chunks, their phrases in order. */
  method TranscribeChunks(samples: seq<int>, transcribe: Transcriber) returns (phrases: seq<string>)
    ensures phrases == TranscribeAll(transcribe, PadChunks(samples, ToneChunkSamples, 0))
  {
    phrases := [];
    var i := 0;
    while i < |samples|
      invariant TranscribeAll(transcribe, PadChunks(samples, ToneChunkSamples, 0))
        == phrases + TranscribeAll(transcribe, RemainingChunks(samples, ToneChunkSamples, 0, i))
      decreases |samples| - i
    {
      var end := if i + ToneChunkSamples <= |samples| then i + ToneChunkSamples else |samples|;
      var chunk := samples[i..end];
      if |chunk| < ToneChunkSamples {
        chunk := chunk + Repeat(0, ToneChunkSamples - |chunk|);
      }
      assert chunk == ChunkAt(samples, ToneChunkSamples, 0, i);
      TranscribeStep(TranscribeAll(transcribe, PadChunks(samples, ToneChunkSamples, 0)), phrases, transcribe, samples, i);
      phrases := phrases + transcribe(chunk);
      i := i + ToneChunkSamples;
    }
    assert RemainingChunks(samples, ToneChunkSamples, 0, i) == [];
    if samples == [] {
      assert RemainingChunks(samples, ToneChunkSamples, 0, 0) == PadChunks(samples, ToneChunkSamples, 0);
    }
  }

  class VideoSdkStreamingStt {
    /** int(silence_threshold * 32767): the sample magnitude below which a frame is silent. */
    var silenceThreshold: int
    /** int(silence_duration * 48000): how much silence ends an utterance. */
    var silenceDurationFrames: int
    var isSpeaking: bool
    var silenceFrames: nat
    var audioBuffer: seq<bv8>
    var cancelled: bool
    var hasTranscriptCallback: bool
    /** The final transcripts handed to the callback, in order. */
    var transcripts: seq<string>

    constructor(silenceThreshold: int, silenceDurationFrames: int, hasTranscriptCallback: bool)
      ensures this.silenceThreshold == silenceThreshold && this.silenceDurationFrames == silenceDurationFrames
      ensures this.hasTranscriptCallback == hasTranscriptCallback
      ensures !isSpeaking && silenceFrames == 0 && audioBuffer == [] && !cancelled && transcripts == []
    {
      this.silenceThreshold := silenceThreshold;
      this.silenceDurationFrames := silenceDurationFrames;
      this.hasTranscriptCallback := hasTranscriptCallback;
      isSpeaking := false;
      silenceFrames := 0;
      audioBuffer := [];
      cancelled := false;
      transcripts := [];
    }

    /** The phrase loop: each phrase's stripped text goes to the callback when its length is 2..500. */
    method ForwardPhrases(phrases: seq<string>)
      modifies this`transcripts
      ensures transcripts == old(transcripts) + Forward(phrases, hasTranscriptCallback)
    {
      for j := 0 to |phrases|
        invariant transcripts == old(transcripts) + Forward(phrases[..j], hasTranscriptCallback)
      {
        ForwardAppend(old(transcripts), transcripts, phrases, j, hasTranscriptCallback);
        var phrase := phrases[j];
        if phrase != "" && hasTranscriptCallback {
          var text := PyStrip(phrase);
          if MinPhraseLength <= |text| <= MaxPhraseLength {
            transcripts := transcripts + [text];
          }
        }
      }
      assert phrases[..|phrases|] == phrases;
    }

    /**
     * _process_accumulated_audio: nothing for an empty buffer or after
     * cancellation; otherwise the buffer is transcribed (unless oversized
     * or undecodable) and is empty afterwards in every case.
     */
    method ProcessAccumulatedAudio(transcribe: Transcriber)
      modifies this`audioBuffer, this`transcripts
      ensures old(audioBuffer == [] || cancelled) ==> audioBuffer == old(audioBuffer) && transcripts == old(transcripts)
      ensures !old(audioBuffer == [] || cancelled) ==> audioBuffer == []
      ensures !old(cancelled) ==>
        transcripts == old(transcripts) + Transcribed(old(audioBuffer), hasTranscriptCallback, transcribe)
    {
      if audioBuffer == [] || cancelled {
        return;
      }
      if |audioBuffer| > MaxBufferBytes {
        audioBuffer := [];
        return;
      }
      if |audioBuffer| % 2 != 0 {
        audioBuffer := [];
        return;
      }
      var samples := Samples(audioBuffer);
      var phrases := TranscribeChunks(samples, transcribe);
      ForwardPhrases(phrases);
      audioBuffer := [];
    }

    /**
     * process_audio: after cancellation nothing changes. Otherwise the frame
     * joins the buffer; speech sets speaking and resets the silence count;
     * silence while speaking adds a quarter of the frame's bytes to the count,
     * and once the count passes the limit the buffer is transcribed and the
     * state goes back to not speaking. Silence is judged as written, so a
     * frame holding the sample -32768 counts as silence.
     */
    method ProcessAudio(frame: seq<bv8>, transcribe: Transcriber)
      modifies this`audioBuffer, this`transcripts, this`isSpeaking, this`silenceFrames
      ensures old(cancelled) ==>
        audioBuffer == old(audioBuffer) && transcripts == old(transcripts) && isSpeaking == old(isSpeaking)
        && silenceFrames == old(silenceFrames)
      ensures !old(cancelled) && !IsSilentAsWritten(frame, silenceThreshold) ==>
        isSpeaking && silenceFrames == 0 && audioBuffer == old(audioBuffer) + frame && transcripts == old(transcripts)
      ensures !old(cancelled) && IsSilentAsWritten(frame, silenceThreshold) && !old(isSpeaking) ==>
        !isSpeaking && silenceFrames == old(silenceFrames) && audioBuffer == old(audioBuffer) + frame
        && transcripts == old(transcripts)
      ensures (!old(cancelled) && IsSilentAsWritten(frame, silenceThreshold) && old(isSpeaking)
               && old(silenceFrames) + |frame| / 4 <= silenceDurationFrames) ==>
        isSpeaking && silenceFrames == old(silenceFrames) + |frame| / 4 && audioBuffer == old(audioBuffer) + frame
        && transcripts == old(transcripts)
      ensures (!old(cancelled) && IsSilentAsWritten(frame, silenceThreshold) && old(isSpeaking)
               && old(silenceFrames) + |frame| / 4 > silenceDurationFrames) ==>
        !isSpeaking && silenceFrames == 0 && audioBuffer == []
        && transcripts == old(transcripts) + Transcribed(old(audioBuffer) + frame, hasTranscriptCallback, transcribe)
    {
      if cancelled {
        return;
      }
      audioBuffer := audioBuffer + frame;
      var silent := IsSilentAsWritten(frame, silenceThreshold);
      if !silent {
        if !isSpeaking {
          isSpeaking := true;
        }
        silenceFrames := 0;
      } else if isSpeaking {
        silenceFrames := silenceFrames + |frame| / 4;
        if silenceFrames > silenceDurationFrames {
          ProcessAccumulatedAudio(transcribe);
          isSpeaking := false;
          silenceFrames := 0;
        }
      }
    }

    /** cancel_current_transcription: every later frame is ignored. */
    method CancelCurrentTranscription()
      modifies this`cancelled
      ensures cancelled
    {
      cancelled := true;
    }

    /** aclose: cancelled, with the buffer dropped. */
    method Aclose()
      modifies this`cancelled, this`audioBuffer
      ensures cancelled && audioBuffer == []
    {
      cancelled := true;
      audioBuffer := [];
    }
  }

  /** Once cancelled, no frame and no processing changes the transcriber's buffer or its transcripts. */
  method CancelledIgnoresFrames(stt: VideoSdkStreamingStt, frames: seq<seq<bv8>>, transcribe: Transcriber)
    modifies stt
    ensures stt.cancelled && stt.transcripts == old(stt.transcripts)
    ensures old(stt.cancelled) ==> stt.audioBuffer == old(stt.audioBuffer)
  {
    stt.CancelCurrentTranscription();
    for i := 0 to |frames|
      invariant stt.cancelled && stt.transcripts == old(stt.transcripts)
      invariant old(stt.cancelled) ==> stt.audioBuffer == old(stt.audioBuffer)
    {
      stt.ProcessAudio(frames[i], transcribe);
    }
  }

  // ---- the local synthesizer ----

  /** _split_sentences: the scan, then only the non-blank sentences. */
  method SplitSentences(text: string) returns (r: seq<string>)
    ensures r == Filter(SentencesOf(text), NotBlank)
  {
    var sentences := ScanSentences(text);
    r := Filter(sentences, NotBlank);
  }

  /** The split keeps every visible character in order, and each piece is non-empty and stripped. */
  lemma SplitSentencesClean(text: string)
    ensures ContentOf(Filter(SentencesOf(text), NotBlank)) == NonSpace(text)
    ensures forall k :: 0 <= k < |Filter(SentencesOf(text), NotBlank)| ==>
      var s := Filter(SentencesOf(text), NotBlank)[k]; s != "" && PyStrip(s) == s
  {
    SentencesKeepContent(text);
    ContentOfFilterBlank(SentencesOf(text));
    SentencesStripped(text);
    var r := Filter(SentencesOf(text), NotBlank);
    forall k | 0 <= k < |r| ensures r[k] != "" && PyStrip(r[k]) == r[k] {
      assert r[k] in SentencesOf(text);
      var j :| 0 <= j < |SentencesOf(text)| && SentencesOf(text)[j] == r[k];
    }
  }

  /** The length guard of _synthesize_text: over 1000 characters, the first 1000 and "...". */
  function TruncateForSynthesis(text: string): (r: string)
    ensures |text| <= MaxSynthesisChars ==> r == text
    ensures |text| > MaxSynthesisChars ==> |r| == MaxSynthesisChars + 3 && r == text[..MaxSynthesisChars] + "..."
  {
    if |text| > MaxSynthesisChars then text[..MaxSynthesisChars] + "..." else text
  }

  /** Truncation keeps the text's start, and its result never exceeds 1003 characters. */
  lemma TruncateKeepsStart(text: string)
    ensures |TruncateForSynthesis(text)| <= MaxSynthesisChars + 3
    ensures var n := if |text| < MaxSynthesisChars then |text| else MaxSynthesisChars;
      TruncateForSynthesis(text)[..n] == text[..n]
  {
  }

  /**
   * The text _synthesize_text hands to the synthesizer: none for blank text,
   * after an interrupt or when the reference audio file is missing.
   */
  function SynthesisInput(text: string, interrupted: bool, refAudioExists: bool): (r: Option<string>)
    ensures r.Some? <==> PyStrip(text) != "" && !interrupted && refAudioExists
    ensures r.Some? ==> r.value == TruncateForSynthesis(text)
  {
    if PyStrip(text) == "" || interrupted then None
    else if !refAudioExists then None
    else Some(TruncateForSynthesis(text))
  }

  /** Python's int() of a float: truncation toward zero. */
  function TruncDiv(n: int, d: nat): (r: int)
    requires d > 0
    ensures n >= 0 ==> 0 <= r && r * d <= n < r * d + d
    ensures n < 0 ==> r <= 0 && r * d - d < n <= r * d
  {
    if n >= 0 then n / d else -((-n) / d)
  }

  /** int(sample_rate * 1 * 2 * 20 / 1000): the bytes of 20 ms of 16-bit mono audio. */
  function ChunkBytesFor(sampleRate: int): (r: int)
    ensures sampleRate >= 0 ==> r == sampleRate / 25
    ensures sampleRate == 16000 ==> r == 640
  {
    TruncDiv(sampleRate * 2 * 20, 1000)
  }

  class VideoSdkESpeechTts {
    var sampleRate: int
    var interrupted: bool
    var firstChunkSent: bool
    var hasFirstAudioCallback: bool
    /** How often the first-audio callback ran since the last reset. */
    var callbacksSinceReset: nat
    /** The chunks handed to the audio track, in order. */
    var sent: seq<seq<bv8>>

    /** The first-audio callback ran exactly when the first chunk was marked sent. */
    predicate Valid()
      reads this
    {
      callbacksSinceReset == (if firstChunkSent then 1 else 0)
    }

    constructor(sampleRate: int)
      ensures Valid() && this.sampleRate == sampleRate
      ensures !interrupted && !firstChunkSent && !hasFirstAudioCallback && sent == []
    {
      this.sampleRate := sampleRate;
      interrupted := false;
      firstChunkSent := false;
      hasFirstAudioCallback := false;
      callbacksSinceReset := 0;
      sent := [];
    }

    /**
     * _stream_audio_chunks: nothing after an interrupt, or when the chunk
     * size is not positive (a zero step raises, a negative one gives an empty
     * range); otherwise 20 ms chunks, the last one zero-padded, with the
     * first-audio callback run before the first chunk unless it already ran.
     */
    method StreamAudioChunks(audio: seq<bv8>)
      requires Valid()
      modifies this`sent, this`firstChunkSent, this`callbacksSinceReset
      ensures Valid()
      ensures interrupted || ChunkBytesFor(sampleRate) <= 0 ==> sent == old(sent) && firstChunkSent == old(firstChunkSent)
      ensures !interrupted && ChunkBytesFor(sampleRate) > 0 ==>
        sent == old(sent) + PadChunks(audio, ChunkBytesFor(sampleRate), 0)
        && firstChunkSent == (old(firstChunkSent) || (hasFirstAudioCallback && audio != []))
    {
      if interrupted {
        return;
      }
      var size := ChunkBytesFor(sampleRate);
      if size <= 0 {
        return;
      }
      var i := 0;
      while i < |audio|
        invariant Valid()
        invariant old(sent) + PadChunks(audio, size, 0) == sent + RemainingChunks(audio, size, 0, i)
        invariant i > 0 ==> audio != []
        invariant firstChunkSent == (old(firstChunkSent) || (hasFirstAudioCallback && i > 0))
        decreases |audio| - i
      {
        var end := if i + size <= |audio| then i + size else |audio|;
        var chunk := audio[i..end];
        if |chunk| < size && |chunk| > 0 {
          chunk := chunk + Repeat(0, size - |chunk|);
        }
        if !firstChunkSent && hasFirstAudioCallback {
          firstChunkSent := true;
          callbacksSinceReset := callbacksSinceReset + 1;
        }
        assert chunk == ChunkAt(audio, size, 0, i);
        EmitStep(old(sent) + PadChunks(audio, size, 0), sent, audio, size, 0, i);
        sent := sent + [chunk];
        i := i + size;
      }
      assert RemainingChunks(audio, size, 0, i) == [];
    }

    /** interrupt: later streaming sends nothing. */
    method Interrupt()
      requires Valid()
      modifies this`interrupted
      ensures Valid() && interrupted
    {
      interrupted := true;
    }

    /** reset_first_audio_tracking: the next chunk may run the callback again. */
    method ResetFirstAudioTracking()
      requires Valid()
      modifies this`firstChunkSent, this`callbacksSinceReset
      ensures Valid() && !firstChunkSent && callbacksSinceReset == 0
    {
      firstChunkSent := false;
      callbacksSinceReset := 0;
    }

    /** aclose: like interrupt. */
    method Aclose()
      requires Valid()
      modifies this`interrupted
      ensures Valid() && interrupted
    {
      interrupted := true;
    }
  }

  /**
   * _accentize: empty text and text that already carries '+' stress marks
   * are returned as they are, and so is any text when no stress model is
   * loaded; otherwise the stress model marks the text.
   */
  function Accentize(text: string, accent: Option<string -> string>): (r: string)
    ensures text == "" || '+' in text || accent.None? ==> r == text
    ensures text != "" && '+' !in text && accent.Some? ==> r == accent.value(text)
  {
    if text == [] || '+' in text then text
    else if accent.Some? then accent.value(text) else text
  }

  /** When the stress model marks what it is given, a second pass changes nothing. */
  lemma AccentizeTwice(text: string, accent: Option<string -> string>)
    requires accent.Some? && text != "" && '+' !in text ==> '+' in accent.value(text)
    ensures Accentize(Accentize(text, accent), accent) == Accentize(text, accent)
  {
  }
}
