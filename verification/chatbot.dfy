/**
 * The interview chatbot: a chat history of alternating question and answer
 * messages sent to the language model after the system prompt, an optional
 * end marker that finalises the interview once (removing the marker from the
 * answer and producing the final feedback), and the interviewer's system
 * prompt. The language model is an oracle from the messages sent to the
 * text it answers.
 */
module Chatbot {
  import opened Wrappers
  import opened Seqs
  import opened Strings
  import opened PyJson
  import CvEstimator

  const DefaultEndMarker := "__END_INTERVIEW__"

  /** The message kinds: HumanMessage, AIMessage and SystemMessage. */
  datatype Role = Human | Ai | System

  datatype Message = Message(role: Role, content: string)

  /** The model's answer to a list of messages (invoke). */
  type Llm = seq<Message> -> string

  /** The chunk contents the model streams for a list of messages (None for a chunk without content). */
  type Stream = seq<Message> -> seq<Option<string>>

  type Feedback = seq<(string, Json)>

  /** The messages sent for a question: the system prompt, the history, then the question. */
  function BuildMessages(systemPrompt: string, history: seq<Message>, question: string): (r: seq<Message>)
    ensures |r| == |history| + 2
    ensures r[0] == Message(System, systemPrompt) && r[|r| - 1] == Message(Human, question)
    ensures r[1..|r| - 1] == history
  {
    [Message(System, systemPrompt)] + history + [Message(Human, question)]
  }

  /** The history holds question/answer pairs: a human message, then an AI one, repeated. */
  predicate Alternating(history: seq<Message>)
    decreases |history|
  {
    history == [] || (|history| >= 2 && history[0].role == Human && history[1].role == Ai && Alternating(history[2..]))
  }

  /** An alternating history has even length, human messages at even positions and AI ones at odd. */
  lemma {:induction false} AlternatingPositions(history: seq<Message>, i: nat)
    requires Alternating(history) && i < |history|
    ensures |history| % 2 == 0
    ensures history[i].role == (if i % 2 == 0 then Human else Ai)
    decreases |history|
  {
    if i >= 2 {
      AlternatingPositions(history[2..], i - 2);
    } else if |history| > 2 {
      AlternatingPositions(history[2..], 0);
    }
  }

  /** Appending a question and its answer keeps the history alternating. */
  lemma {:induction false} AlternatingAppend(history: seq<Message>, question: string, answer: string)
    requires Alternating(history)
    ensures Alternating(history + [Message(Human, question), Message(Ai, answer)])
    decreases |history|
  {
    var pair := [Message(Human, question), Message(Ai, answer)];
    if history == [] {
      assert history + pair == pair && pair[2..] == [];
    } else {
      AlternatingAppend(history[2..], question, answer);
      assert (history + pair)[2..] == history[2..] + pair;
    }
  }

  /** The role get_history reports. */
  function RoleName(r: Role): string
  {
    match r
    case Human => "user"
    case Ai => "assistant"
    case System => "system"
  }

  /** get_history: one (role, content) pair per message, in order. */
  function HistoryView(history: seq<Message>): (r: seq<(string, string)>)
    ensures |r| == |history|
    ensures forall i :: 0 <= i < |history| ==> r[i] == (RoleName(history[i].role), history[i].content)
  {
    seq(|history|, i requires 0 <= i < |history| => (RoleName(history[i].role), history[i].content))
  }

  /** After a turn the view ends with the user's question and the assistant's answer. */
  lemma HistoryViewOfTurn(history: seq<Message>, question: string, answer: string)
    ensures HistoryView(history + [Message(Human, question), Message(Ai, answer)])
      == HistoryView(history) + [("user", question), ("assistant", answer)]
  {
  }

  /** The non-empty chunk texts, in arrival order. */
  function Texts(chunks: seq<Option<string>>): (r: seq<string>)
    ensures |r| <= |chunks|
    ensures forall i :: 0 <= i < |r| ==> r[i] != ""
  {
    if chunks == [] then []
    else
      var last := chunks[|chunks| - 1];
      Texts(chunks[..|chunks| - 1]) + (if last.Some? && last.value != "" then [last.value] else [])
  }

  // ---- final feedback ----

  /** The keys the feedback instruction asks the model for, each in its quotes. */
  const QuotedKeys: seq<string> :=
    ["\"summary\"", "\"strengths\"", "\"weaknesses\"", "\"recommendations\"", "\"verdict\"", "\"risk_notes\""]

  /** The verdicts the instruction allows. */
  const VerdictChoices := "['strong_hire','hire','borderline','no_hire']"

  /** The text between the keys of the instruction, in Russian or in English. */
  function InstructionGlue(ru: bool): (r: seq<string>)
    ensures |r| == 8
  {
    if ru then
      [
        "Проанализируй " + "полную беседу " + "интервью. Верни " + "строго JSON со " + "структурой: {",
        ": краткое " + "объективное резюме " + "кандидата (2-4 " + "предложения), ",
        ": [список сильных " + "сторон в формате " + "коротких фраз], ",
        ": [список зон " + "роста], ",
        ": [что уточнить или " + "проверить " + "дополнительно], ",
        ": одно из ",
        ", ",
        ": [ключевые риски " + "(если есть)] }. Не " + "добавляй " + "комментарии и текст "
          + "вне JSON. Оцени " + "аккуратно, без " + "преувеличений."
      ]
    else
      [
        "Analyse the full " + "interview. Return " + "STRICT JSON: { ",
        ": short objective " + "summary (2-4 " + "sentences), ",
        ": [list of " + "strengths], ",
        ": [list of " + "weaknesses], ",
        ": [follow-up or " + "validation " + "suggestions], ",
        ": one of ",
        ", ",
        ": [key risks if " + "any] }. No " + "commentary outside " + "JSON."
      ]
  }

  /** The instruction's pieces: each quoted key and the verdict choices are pieces of their own. */
  function InstructionParts(ru: bool): (r: seq<string>)
    ensures |r| == 15 && r[11] == VerdictChoices
    ensures r[1] == QuotedKeys[0] && r[3] == QuotedKeys[1] && r[5] == QuotedKeys[2]
    ensures r[7] == QuotedKeys[3] && r[9] == QuotedKeys[4] && r[13] == QuotedKeys[5]
  {
    var g := InstructionGlue(ru);
    [ g[0], QuotedKeys[0], g[1], QuotedKeys[1], g[2], QuotedKeys[2], g[3], QuotedKeys[3], g[4],
      QuotedKeys[4], g[5], VerdictChoices, g[6], QuotedKeys[5], g[7] ]
  }

  /**
   * The instruction that closes the feedback request, in Russian or in
   * English: either way it asks for every feedback key and names the allowed
   * verdicts.
   */
  function FeedbackInstruction(ru: bool): (r: string)
    ensures forall i :: 0 <= i < |QuotedKeys| ==> Contains(r, QuotedKeys[i])
    ensures Contains(r, VerdictChoices)
  {
    var parts := InstructionParts(ru);
    FlattenContainsPart(parts, 1);
    FlattenContainsPart(parts, 3);
    FlattenContainsPart(parts, 5);
    FlattenContainsPart(parts, 7);
    FlattenContainsPart(parts, 9);
    FlattenContainsPart(parts, 13);
    FlattenContainsPart(parts, 11);
    Flatten(parts)
  }

  const RussianLead := "Ты выступаешь"
  const RussianPosition := "Позиция:"

  /** The feedback instruction is Russian when the system prompt reads like the Russian interviewer prompt. */
  predicate FeedbackIsRussian(systemPrompt: string)
  {
    Contains(systemPrompt, RussianLead) || Contains(systemPrompt, RussianPosition)
  }

  /** The messages sent for the feedback: the system prompt, the history, then the instruction. */
  function FeedbackRequest(systemPrompt: string, history: seq<Message>): (r: seq<Message>)
    ensures |r| == |history| + 2 && r[0] == Message(System, systemPrompt) && r[1..|r| - 1] == history
    ensures r[|r| - 1] == Message(Human, FeedbackInstruction(FeedbackIsRussian(systemPrompt)))
  {
    BuildMessages(systemPrompt, history, FeedbackInstruction(FeedbackIsRussian(systemPrompt)))
  }

  /** The feedback for an interview with no messages. */
  function InsufficientFeedback(): Feedback
  {
    [("summary", JStr("Нет данных интервью.")), ("strengths", JArr([])), ("weaknesses", JArr([])),
     ("recommendations", JArr([])), ("verdict", JStr("insufficient_data")), ("raw_model_output", JStr(""))]
  }

  /** The feedback when the model's answer does not parse (before raw_model_output is added). */
  function ParseErrorFeedback(): Feedback
  {
    [("summary", JStr("(parse_error)")), ("strengths", JArr([])), ("weaknesses", JArr([])),
     ("recommendations", JArr([])), ("verdict", JStr("parse_error")), ("risk_notes", JArr([]))]
  }

  lemma ParseErrorVerdict()
    ensures Get(ParseErrorFeedback(), "verdict") == Some(JStr("parse_error"))
  {
    var f := ParseErrorFeedback();
    GetFirst(f, "verdict", 4);
  }

  /**
   * generate_final_feedback: without history no model call and the
   * insufficient-data feedback; otherwise the model's stripped answer is cut
   * from the first '{' to the last '}' and parsed (a last '}' before the
   * first '{' gives an empty slice, which json.loads rejects), falling back
   * to the parse-error feedback, and raw_model_output is set to the text.
   */
  function FinalFeedback(systemPrompt: string, history: seq<Message>, llm: Llm, loads: CvEstimator.Loads): (r: Feedback)
    ensures history == [] ==> r == InsufficientFeedback()
    ensures history != [] ==> Get(r, "raw_model_output") == Some(JStr(FeedbackText(systemPrompt, history, llm)))
    ensures history != [] && CvEstimator.Unparseable(FeedbackText(systemPrompt, history, llm), loads) ==>
      Get(r, "verdict") == Some(JStr("parse_error"))
    ensures history != [] ==> forall k :: k != "raw_model_output" ==>
      Get(r, k) == Get(ParsedFeedback(FeedbackText(systemPrompt, history, llm), loads), k)
  {
    if history == [] then InsufficientFeedback()
    else
      var text := FeedbackText(systemPrompt, history, llm);
      var parsed := ParsedFeedback(text, loads);
      RawOutputSet(parsed, text);
      ParseErrorVerdict();
      Set(parsed, "raw_model_output", JStr(text))
  }

  /** The model's stripped answer to the feedback request. */
  function FeedbackText(systemPrompt: string, history: seq<Message>, llm: Llm): string
  {
    PyStrip(llm(FeedbackRequest(systemPrompt, history)))
  }

  /** The answer's outer JSON object when it parses, else the parse-error feedback. */
  function ParsedFeedback(text: string, loads: CvEstimator.Loads): (r: Feedback)
    ensures CvEstimator.Unparseable(text, loads) ==> r == ParseErrorFeedback()
    ensures !CvEstimator.Unparseable(text, loads) ==> r == loads(CvEstimator.ExtractOuterJson(text).value).value
  {
    if CvEstimator.Unparseable(text, loads) then ParseErrorFeedback()
    else loads(CvEstimator.ExtractOuterJson(text).value).value
  }

  /** Setting raw_model_output leaves every other key of the feedback as it was. */
  lemma RawOutputSet(parsed: Feedback, text: string)
    ensures Get(Set(parsed, "raw_model_output", JStr(text)), "raw_model_output") == Some(JStr(text))
    ensures forall k :: k != "raw_model_output" ==> Get(Set(parsed, "raw_model_output", JStr(text)), k) == Get(parsed, k)
  {
    GetSetSame(parsed, "raw_model_output", JStr(text));
    forall k | k != "raw_model_output"
      ensures Get(Set(parsed, "raw_model_output", JStr(text)), k) == Get(parsed, k)
    {
      GetSetOther(parsed, "raw_model_output", k, JStr(text));
    }
  }

  // ---- finalisation ----

  /** str.replace(marker, ""): every non-overlapping occurrence removed (an empty marker changes nothing). */
  function MarkerRemoved(answer: string, marker: string): (r: string)
    ensures |r| <= |answer|
    ensures !Contains(answer, marker) ==> r == answer
  {
    if marker == "" then answer else RemoveAll(answer, marker)
  }

  /** The answer returned after finalising: the marker removed and trailing whitespace dropped. */
  function Cleaned(answer: string, marker: string): (r: string)
    ensures |r| <= |answer|
    ensures r != [] ==> !IsPySpace(r[|r| - 1])
    ensures !Contains(answer, marker) ==> r == PyRStrip(answer)
  {
    PyRStrip(MarkerRemoved(answer, marker))
  }

  /** The marker is removed left to right: its first occurrence goes, the text before it stays, and removal goes on after it. */
  lemma MarkerRemovedAtFirst(before: string, marker: string, after: string)
    requires marker != ""
    requires forall i :: 0 <= i < |before| ==> !StartsWith((before + marker + after)[i..], marker)
    ensures MarkerRemoved(before + marker + after, marker) == before + MarkerRemoved(after, marker)
  {
    RemoveAllAtFirst(before, marker, after);
  }

  /**
   * The usual closing turn: the answer ends with the marker and the marker
   * occurs nowhere earlier. Finalisation fires and the text before the marker
   * is returned, right-stripped.
   */
  lemma MarkerAtEndCleaned(text: string, marker: string)
    requires marker != ""
    requires forall i :: 0 <= i < |text| ==> !StartsWith((text + marker)[i..], marker)
    ensures Contains(text + marker, marker)
    ensures Cleaned(text + marker, marker) == PyRStrip(text)
  {
    assert text + marker + "" == text + marker;
    RemoveAllAtFirst(text, marker, "");
    assert RemoveAll("", marker) == "";
    assert text + "" == text;
    assert MarkerRemoved(text + marker, marker) == text;
    ContainsInMiddle(text, marker, "");
  }

  /** An answer that is only the marker, on a line of its own, leaves nothing. */
  lemma MarkerLineCleaned(marker: string)
    requires marker != "" && !IsPySpace(marker[0])
    ensures Cleaned("\n" + marker, marker) == ""
  {
    var s := "\n" + marker;
    assert s[..|marker|] != marker by { assert s[0] != marker[0]; }
    assert s[1..] == marker;
    assert RemoveAll(s[1..], marker) == "";
    assert RemoveAll(s, marker) == "\n";
  }

  /** _maybe_finalize fires: auto-finalise is on, the chat is not finalised yet and the marker occurs. */
  predicate Fires(autoFinalize: bool, finalized: bool, marker: string, answer: string)
  {
    autoFinalize && !finalized && Contains(answer, marker)
  }

  /** ask_stream yields one trailing "" after the chunks exactly when finalisation fires and cleaning changes the answer. */
  predicate ExtraYield(autoFinalize: bool, finalized: bool, marker: string, answer: string)
  {
    Fires(autoFinalize, finalized, marker, answer) && Cleaned(answer, marker) != answer
  }

  /** The reply the model gives to a request. */
  function Reply(llm: Llm, request: seq<Message>): string
  {
    llm(request)
  }

  /** The non-empty texts the model streams for a request, in arrival order. */
  function StreamedTexts(stream: Stream, request: seq<Message>): seq<string>
  {
    Texts(stream(request))
  }

  /** The stateful chatbot; the model client and the key are outside the model. */
  class GroqChatbot {
    var systemPrompt: string
    var history: seq<Message>
    var endMarker: string
    var autoFinalize: bool
    var finalized: bool
    var finalFeedback: Option<Feedback>
    var autoSavePath: Option<string>

    /** The history alternates, and a finalised chat has its feedback. */
    predicate Valid()
      reads this
    {
      Alternating(history) && (finalized ==> finalFeedback.Some?)
    }

    constructor(systemPrompt: string)
      ensures Valid()
      ensures this.systemPrompt == systemPrompt && history == [] && endMarker == DefaultEndMarker
      ensures !autoFinalize && !finalized && finalFeedback.None? && autoSavePath.None?
    {
      this.systemPrompt := systemPrompt;
      history := [];
      endMarker := DefaultEndMarker;
      autoFinalize := false;
      finalized := false;
      finalFeedback := None;
      autoSavePath := None;
    }

    method SetSystemPrompt(prompt: string)
      requires Valid()
      modifies this
      ensures Valid()
      ensures systemPrompt == prompt
      ensures history == old(history) && endMarker == old(endMarker) && autoFinalize == old(autoFinalize)
      ensures finalized == old(finalized) && finalFeedback == old(finalFeedback) && autoSavePath == old(autoSavePath)
    {
      systemPrompt := prompt;
    }

    /** enable_auto_finalize: sets the marker and the save path; a finished chat stays finished. */
    method EnableAutoFinalize(marker: string, savePath: Option<string>)
      requires Valid()
      modifies this
      ensures Valid()
      ensures endMarker == marker && autoFinalize && autoSavePath == savePath
      ensures systemPrompt == old(systemPrompt) && history == old(history)
      ensures finalized == old(finalized) && finalFeedback == old(finalFeedback)
    {
      endMarker := marker;
      autoFinalize := true;
      autoSavePath := savePath;
    }

    /** Records the final feedback and marks the chat finished. */
    method Finish(feedback: Feedback)
      requires Valid()
      modifies this
      ensures Valid()
      ensures systemPrompt == old(systemPrompt) && endMarker == old(endMarker)
      ensures autoFinalize == old(autoFinalize) && autoSavePath == old(autoSavePath)
      ensures history == old(history)
      ensures finalized && finalFeedback == Some(feedback)
    {
      finalFeedback := Some(feedback);
      finalized := true;
    }

    /**
     * _maybe_finalize: when it fires, the final feedback is produced from the
     * current history, the chat is finalised and the cleaned answer
     * returned; otherwise the answer is returned unchanged and nothing moves.
     */
    method MaybeFinalize(answer: string, llm: Llm, loads: CvEstimator.Loads) returns (r: string)
      requires Valid()
      modifies this
      ensures Valid()
      ensures systemPrompt == old(systemPrompt) && endMarker == old(endMarker)
      ensures autoFinalize == old(autoFinalize) && autoSavePath == old(autoSavePath)
      ensures history == old(history)
      ensures Fires(autoFinalize, old(finalized), endMarker, answer) ==>
        r == Cleaned(answer, endMarker) && finalized
        && finalFeedback == Some(FinalFeedback(systemPrompt, history, llm, loads))
      ensures !Fires(autoFinalize, old(finalized), endMarker, answer) ==>
        r == answer && finalized == old(finalized) && finalFeedback == old(finalFeedback)
    {
      if autoFinalize && !finalized && Contains(answer, endMarker) {
        var feedback := FinalFeedback(systemPrompt, history, llm, loads);
        Finish(feedback);
        return Cleaned(answer, endMarker);
      }
      return answer;
    }

    /** Appends a question and its answer to the history; nothing else changes. */
    method Record(question: string, answer: string)
      requires Valid()
      modifies this
      ensures Valid()
      ensures systemPrompt == old(systemPrompt) && endMarker == old(endMarker)
      ensures autoFinalize == old(autoFinalize) && autoSavePath == old(autoSavePath)
      ensures finalized == old(finalized) && finalFeedback == old(finalFeedback)
      ensures history == old(history) + [Message(Human, question), Message(Ai, answer)]
      ensures history != [] && history[|history| - 1].content == answer
    {
      AlternatingAppend(history, question, answer);
      history := history + [Message(Human, question), Message(Ai, answer)];
    }

    /**
     * ask: the model answers the built messages; the question and the raw
     * answer (marker included) join the history, and the answer is returned
     * after finalisation.
     */
    method Ask(question: string, llm: Llm, loads: CvEstimator.Loads) returns (answer: string)
      requires Valid()
      modifies this
      ensures Valid()
      ensures systemPrompt == old(systemPrompt) && endMarker == old(endMarker)
      ensures autoFinalize == old(autoFinalize) && autoSavePath == old(autoSavePath)
      ensures history == old(history) + [Message(Human, question), Message(Ai, Reply(llm, BuildMessages(old(systemPrompt), old(history), question)))]
      ensures var reply := Reply(llm, BuildMessages(systemPrompt, old(history), question));
        Fires(autoFinalize, old(finalized), endMarker, reply) ==>
          answer == Cleaned(reply, endMarker) && finalized
          && finalFeedback == Some(FinalFeedback(systemPrompt, history, llm, loads))
      ensures var reply := Reply(llm, BuildMessages(systemPrompt, old(history), question));
        !Fires(autoFinalize, old(finalized), endMarker, reply) ==>
          answer == reply && finalized == old(finalized) && finalFeedback == old(finalFeedback)
      ensures old(finalized) ==> answer == Reply(llm, BuildMessages(systemPrompt, old(history), question)) && finalFeedback == old(finalFeedback)
    {
      var reply := Reply(llm, BuildMessages(systemPrompt, history, question));
      Record(question, reply);
      answer := MaybeFinalize(reply, llm, loads);
    }

    /**
     * ask_stream: yields every non-empty chunk as it arrives, stores their
     * concatenation as the answer, and yields one empty string more when
     * finalisation changed the answer.
     */
    method AskStream(question: string, stream: Stream, llm: Llm, loads: CvEstimator.Loads) returns (yielded: seq<string>)
      requires Valid()
      modifies this
      ensures Valid()
      ensures systemPrompt == old(systemPrompt) && endMarker == old(endMarker)
      ensures autoFinalize == old(autoFinalize) && autoSavePath == old(autoSavePath)
      ensures var texts := StreamedTexts(stream, BuildMessages(old(systemPrompt), old(history), question));
        history == old(history) + [Message(Human, question), Message(Ai, Flatten(texts))]
      ensures var texts := StreamedTexts(stream, BuildMessages(old(systemPrompt), old(history), question));
        Flatten(yielded) == Flatten(texts) && |texts| <= |yielded| <= |texts| + 1 && yielded[..|texts|] == texts
      ensures var texts := StreamedTexts(stream, BuildMessages(old(systemPrompt), old(history), question));
        Fires(autoFinalize, old(finalized), endMarker, Flatten(texts)) ==>
          finalized && finalFeedback == Some(FinalFeedback(systemPrompt, history, llm, loads))
      ensures var texts := StreamedTexts(stream, BuildMessages(old(systemPrompt), old(history), question));
        !Fires(autoFinalize, old(finalized), endMarker, Flatten(texts)) ==>
          finalized == old(finalized) && finalFeedback == old(finalFeedback) && yielded == texts
      ensures var texts := StreamedTexts(stream, BuildMessages(old(systemPrompt), old(history), question));
        yielded == if ExtraYield(autoFinalize, old(finalized), endMarker, Flatten(texts)) then texts + [""] else texts
    {
      var texts := StreamTurn(question, stream);
      yielded := FinishStream(texts, llm, loads);
    }

    /** The streaming part of ask_stream: the chunk texts are collected and their concatenation joins the history. */
    method StreamTurn(question: string, stream: Stream) returns (texts: seq<string>)
      requires Valid()
      modifies this
      ensures Valid()
      ensures systemPrompt == old(systemPrompt) && endMarker == old(endMarker)
      ensures autoFinalize == old(autoFinalize) && autoSavePath == old(autoSavePath)
      ensures finalized == old(finalized) && finalFeedback == old(finalFeedback)
      ensures texts == StreamedTexts(stream, BuildMessages(systemPrompt, old(history), question))
      ensures history == old(history) + [Message(Human, question), Message(Ai, Flatten(texts))]
      ensures history != [] && history[|history| - 1].content == Flatten(texts)
    {
      texts := CollectTexts(stream(BuildMessages(systemPrompt, history, question)));
      Record(question, Flatten(texts));
    }

    /**
     * The end of ask_stream, once the streamed answer is in the history:
     * finalisation on the full answer, and one empty string more when it
     * changed the answer.
     */
    method FinishStream(texts: seq<string>, llm: Llm, loads: CvEstimator.Loads) returns (yielded: seq<string>)
      requires Valid() && history != [] && history[|history| - 1].content == Flatten(texts)
      modifies this
      ensures Valid()
      ensures systemPrompt == old(systemPrompt) && endMarker == old(endMarker)
      ensures autoFinalize == old(autoFinalize) && autoSavePath == old(autoSavePath)
      ensures history == old(history)
      ensures Flatten(yielded) == Flatten(texts)
      ensures |texts| <= |yielded| <= |texts| + 1 && yielded[..|texts|] == texts
      ensures Fires(autoFinalize, old(finalized), endMarker, Flatten(texts)) ==>
        finalized && finalFeedback == Some(FinalFeedback(systemPrompt, history, llm, loads))
      ensures !Fires(autoFinalize, old(finalized), endMarker, Flatten(texts)) ==>
        finalized == old(finalized) && finalFeedback == old(finalFeedback) && yielded == texts
      ensures yielded == if ExtraYield(autoFinalize, old(finalized), endMarker, Flatten(texts)) then texts + [""] else texts
    {
      var full := Flatten(texts);
      var finalAnswer := MaybeFinalize(full, llm, loads);
      yielded := texts;
      if finalAnswer != full {
        EmptyTail(texts);
        yielded := texts + [""];
      }
    }

    /** get_history: one (role, content) pair per message of the history, in order. */
    function GetHistory(): (r: seq<(string, string)>)
      reads this
      ensures |r| == |history|
      ensures forall i :: 0 <= i < |history| ==> r[i] == (RoleName(history[i].role), history[i].content)
    {
      HistoryView(history)
    }

    /** reset_history: the history is emptied; the system prompt and the finalisation state stay. */
    method ResetHistory()
      requires Valid()
      modifies this
      ensures Valid()
      ensures history == []
      ensures systemPrompt == old(systemPrompt) && endMarker == old(endMarker) && autoFinalize == old(autoFinalize)
      ensures finalized == old(finalized) && finalFeedback == old(finalFeedback) && autoSavePath == old(autoSavePath)
    {
      history := [];
    }
  }

  /** The loop of ask_stream: the non-empty chunk texts, collected as they arrive. */
  method CollectTexts(chunks: seq<Option<string>>) returns (texts: seq<string>)
    ensures texts == Texts(chunks)
  {
    texts := [];
    for i := 0 to |chunks|
      invariant texts == Texts(chunks[..i])
    {
      assert chunks[..i + 1][..i] == chunks[..i];
      var text := chunks[i];
      if text.Some? && text.value != "" {
        texts := texts + [text.value];
      }
    }
    assert chunks[..|chunks|] == chunks;
  }

  /** One more empty string yields nothing more and keeps what came before. */
  lemma EmptyTail(texts: seq<string>)
    ensures Flatten(texts + [""]) == Flatten(texts) && (texts + [""])[..|texts|] == texts
  {
    FlattenAppend(texts, "");
    ConcatEmpty(Flatten(texts));
  }

  /** Once finalised, further answers pass through untouched and the feedback stays the first one. */
  lemma FinalizedAnswersUntouched(autoFinalize: bool, marker: string, answer: string)
    ensures !Fires(autoFinalize, true, marker, answer)
  {
  }

  /** The chatbot's constructor: None (the ValueError) when neither the argument nor the environment gives a key. */
  method NewChatbot(systemPrompt: string, apiKey: Option<string>, envKey: Option<string>) returns (r: Option<GroqChatbot>)
    ensures r.Some? <==> CvEstimator.ApiKey(apiKey, envKey).Some?
    ensures r.Some? ==> fresh(r.value) && r.value.Valid() && r.value.systemPrompt == systemPrompt && r.value.history == []
  {
    if CvEstimator.ApiKey(apiKey, envKey).None? {
      return None;
    }
    var bot := new GroqChatbot(systemPrompt);
    return Some(bot);
  }

  // ---- the interviewer's system prompt ----

  /** The competencies block: each one on its own "- " line, or a note that none were given. */
  function CompetenciesText(competencies: Option<seq<string>>): (r: string)
    ensures competencies.Some? && competencies.value != [] ==> StartsWith(r, "\n- ")
  {
    if competencies.Some? && competencies.value != [] then "\n- " + Join(competencies.value, "\n- ")
    else " (компетенции не перечислены явно)"
  }

  lemma {:induction false} JoinContains(parts: seq<string>, sep: string, k: nat)
    requires k < |parts|
    ensures Contains(Join(parts, sep), parts[k])
    decreases |parts|
  {
    if |parts| == 1 {
      assert Join(parts, sep) == parts[0];
      ContainsAt(parts[0], parts[0], 0);
    } else if k == 0 {
      ContainsAt(Join(parts, sep), parts[0], 0);
    } else {
      JoinContains(parts[1..], sep, k - 1);
      ContainsAppendLeft(parts[0] + sep, Join(parts[1..], sep), parts[k]);
    }
  }

  /** Every competency given appears in the competencies block. */
  lemma CompetencyListed(competencies: seq<string>, k: nat)
    requires k < |competencies|
    ensures Contains(CompetenciesText(Some(competencies)), competencies[k])
  {
    JoinContains(competencies, "\n- ", k);
    ContainsAppendLeft("\n- ", Join(competencies, "\n- "), competencies[k]);
  }

  const RulesRu1 :=
    "Правила ведения интервью:\n1. Задавай по "
    + "одному конкретному вопросу за раз. Жди ответа.\n"
    + "2. Начни с короткого приветствия и уточни "
    + "готовность начать.\n3. Рассредоточь вопросы: "
    + "мотивация, опыт, технологии, глубина знаний, "
    + "софт-скиллы.\n4. Уточняй детали: если ответ "
    + "общий – спроси примеры, метрики, цифры.\n"
    + "5. Не подсказывай решение, но можешь мягко "
    + "направлять.\n6. Избегай оценочных суждений "
    + "во время диалога.\n"
  const RulesRu2 :=
    "8. Если кандидат уходит в сторону – вежливо "
    + "верни к теме.\n9. Если пользователь просит "
    + "итог – выдай структурированное резюме: Компетенции "
    + "/ Сильные стороны / Риски / Рекомендация.\n"
  const RulesRu3 :=
    "11. Используй резюме для углубления: не "
    + "повторяй очевидные навыки, уточняй пробелы, "
    + "результаты, метрики, контекст проектов.\n"
    + "Формат: только текст вопроса или сообщение "
    + "без префиксов и markdown."

  /** The resume block: present only for a non-empty resume. */
  function ResumeParts(intro: string, resume: Option<string>): (r: seq<string>)
    ensures resume.Some? && resume.value != "" ==> |r| == 3 && r[1] == resume.value
  {
    if resume.Some? && resume.value != "" then [intro, resume.value, "\n\n"] else []
  }

  /** The end-marker instruction: present only when asked for. */
  function MarkerParts(before: string, marker: string, after: string, present: bool): (r: seq<string>)
    ensures present ==> |r| == 3 && r[1] == marker
  {
    if present then [before, marker, after] else []
  }

  // The fixed pieces of the prompt, in the order they appear.
  const RuCompanyIntro := " как автоматизированный технический интервьюер компании "
  const RuPositionLabel := "Позиция: "
  const RuGoal := ". Цель – структурированно оценить кандидата.\n\n"
  const RuJobIntro :=
    "Описание вакансии (используй для контекста, "
    + "не зачитывай дословно):\n"
  const RuResumeIntro :=
    "Резюме кандидата (используй для уточняющих "
    + "вопросов, не зачитывай дословно):\n"
  const RuCompetencies := "Ключевые компетенции для оценки:"
  const RuLimitBefore := "7. Не задавай более "
  const RuLimitAfter := " основных вопросов (уточняющие не считаются).\n"
  const RuStyle := "10. Стиль: "
  const RuMarkerBefore :=
    "\nКогда информации достаточно для объективного "
    + "вывода — выведи ОТДЕЛЬНОЙ СТРОКОЙ только "
    + "маркер "
  const RuMarkerAfter :=
    " (без других символов) и прекрати задавать "
    + "новые основные вопросы. Не делай заключение "
    + "в том же сообщении."
  const EnLead := "You are an autonomous structured technical interviewer for "
  const EnPositionLabel := ". Position: "
  const EnJobIntro :=
    "Use the job description for context (do "
    + "not read it verbatim):\n"
  const EnResumeIntro := "Candidate resume (for tailoring, do not read verbatim):\n"
  const EnCompetencies := "Key competencies to assess:"
  const EnLimitBefore := "Ask at most "
  const EnLimitAfter :=
    " primary questions, one at a time, probe "
    + "deeper with follow-ups. "
  const EnTailor :=
    "Tailor questions to clarify gaps, quantify "
    + "impact, and avoid repeating already known "
    + "skills."
  const EnMarkerBefore :=
    " When you have enough information for an "
    + "objective decision, output ONLY the marker "
  const EnMarkerAfter :=
    " on its own line (no other text) and stop "
    + "asking new primary questions. Do NOT include "
    + "the conclusion in that same message."

  /** The opening pieces: who the interviewer is, the position and the job description. */
  function HeadParts(ru: bool, jobDescription: string, position: string, company: string): (r: seq<string>)
    ensures ru ==> |r| == 10 && r[0] == RussianLead && r[2] == company && r[5] == position && r[8] == jobDescription
    ensures !ru ==> |r| == 8 && r[1] == company && r[3] == position && r[6] == jobDescription
  {
    if ru then
      [RussianLead, RuCompanyIntro, company, ". ", RuPositionLabel, position, RuGoal, RuJobIntro, jobDescription, "\n\n"]
    else
      [EnLead, company, EnPositionLabel, position, ". ", EnJobIntro, jobDescription, "\n\n"]
  }

  /** The pieces after the resume: competencies, rules, the question limit (and the style, in Russian). */
  function BodyParts(ru: bool, competencies: Option<seq<string>>, maxQuestions: int, style: string): seq<string>
  {
    if ru then
      [RuCompetencies, CompetenciesText(competencies), "\n\n", RulesRu1,
       RuLimitBefore, IntToString(maxQuestions), RuLimitAfter, RulesRu2, RuStyle, style, "\n", RulesRu3]
    else
      [EnCompetencies, CompetenciesText(competencies), "\n", EnLimitBefore, IntToString(maxQuestions), EnLimitAfter,
       EnTailor]
  }

  /** The prompt is Russian when the language code starts with "ru" in any case. */
  predicate IsRussian(language: string)
  {
    StartsWith(Lower(language), "ru")
  }

  function ResumeIntro(ru: bool): string
  {
    if ru then RuResumeIntro else EnResumeIntro
  }

  function MarkerBefore(ru: bool): string
  {
    if ru then RuMarkerBefore else EnMarkerBefore
  }

  function MarkerAfter(ru: bool): string
  {
    if ru then RuMarkerAfter else EnMarkerAfter
  }

  /** The prompt as the sequence of its pieces, fixed text and arguments in order. */
  function PromptParts(jobDescription: string, position: string, company: string, competencies: Option<seq<string>>,
                       resume: Option<string>, language: string, maxQuestions: int, style: string,
                       marker: string, includeMarker: bool): seq<string>
  {
    var ru := IsRussian(language);
    HeadParts(ru, jobDescription, position, company)
    + (ResumeParts(ResumeIntro(ru), resume)
       + (BodyParts(ru, competencies, maxQuestions, style)
          + MarkerParts(MarkerBefore(ru), marker, MarkerAfter(ru), includeMarker)))
  }

  /**
   * build_interview_system_prompt: the prompt names the company, the
   * position and the job description, the resume when one is given and the
   * end marker when its instruction is included; a prompt built in Russian
   * makes the final feedback ask in Russian.
   */
  function BuildInterviewSystemPrompt(jobDescription: string, position: string, company: string,
                                      competencies: Option<seq<string>>, resume: Option<string>, language: string,
                                      maxQuestions: int, style: string, marker: string, includeMarker: bool): (r: string)
    ensures Contains(r, company) && Contains(r, position) && Contains(r, jobDescription)
    ensures resume.Some? && resume.value != "" ==> Contains(r, resume.value)
    ensures includeMarker ==> Contains(r, marker)
    ensures IsRussian(language) ==> FeedbackIsRussian(r)
  {
    PartsMention(jobDescription, position, company, competencies, resume, language, maxQuestions, style, marker,
                 includeMarker);
    Flatten(PromptParts(jobDescription, position, company, competencies, resume, language, maxQuestions, style,
                        marker, includeMarker))
  }

  lemma {:induction false} FlattenContainsPart(parts: seq<string>, k: nat)
    requires k < |parts|
    ensures Contains(Flatten(parts), parts[k])
    decreases |parts|
  {
    if k == 0 {
      ContainsAt(Flatten(parts), parts[0], 0);
    } else {
      FlattenContainsPart(parts[1..], k - 1);
      ContainsAppendLeft(parts[0], Flatten(parts[1..]), parts[k]);
    }
  }

  /** A piece of the first of two piece lists is a piece of their concatenation, at the same place. */
  lemma ContainsPartLeft(a: seq<string>, b: seq<string>, k: nat)
    requires k < |a|
    ensures Contains(Flatten(a + b), a[k])
  {
    assert (a + b)[k] == a[k];
    FlattenContainsPart(a + b, k);
  }

  /** A piece of the second of two piece lists is a piece of their concatenation, shifted. */
  lemma ContainsPartRight(a: seq<string>, b: seq<string>, k: nat)
    requires k < |b|
    ensures Contains(Flatten(a + b), b[k])
  {
    assert (a + b)[|a| + k] == b[k];
    FlattenContainsPart(a + b, |a| + k);
  }

  /** The head names the company, the position and the job description, whatever follows it. */
  lemma HeadMentioned(ru: bool, jobDescription: string, position: string, company: string, rest: seq<string>)
    ensures var f := Flatten(HeadParts(ru, jobDescription, position, company) + rest);
      Contains(f, company) && Contains(f, position) && Contains(f, jobDescription)
  {
    var head := HeadParts(ru, jobDescription, position, company);
    if ru {
      ContainsPartLeft(head, rest, 2);
      ContainsPartLeft(head, rest, 5);
      ContainsPartLeft(head, rest, 8);
    } else {
      ContainsPartLeft(head, rest, 1);
      ContainsPartLeft(head, rest, 3);
      ContainsPartLeft(head, rest, 6);
    }
  }

  /** A non-empty resume block names the resume, wherever it is placed. */
  lemma ResumeMentioned(head: seq<string>, intro: string, resume: Option<string>, rest: seq<string>)
    requires resume.Some? && resume.value != ""
    ensures Contains(Flatten(head + (ResumeParts(intro, resume) + rest)), resume.value)
  {
    var tail := ResumeParts(intro, resume) + rest;
    assert tail[1] == resume.value;
    ContainsPartRight(head, tail, 1);
  }

  /** An included marker instruction names the marker, wherever it is placed. */
  lemma MarkerMentioned(head: seq<string>, res: seq<string>, body: seq<string>, before: string, marker: string,
                        after: string)
    ensures Contains(Flatten(head + (res + (body + MarkerParts(before, marker, after, true)))), marker)
  {
    var tail := res + (body + MarkerParts(before, marker, after, true));
    assert tail[|res| + |body| + 1] == marker;
    ContainsPartRight(head, tail, |res| + |body| + 1);
  }

  /**
   * The prompt's pieces, joined, name the company, the position and the job
   * description, a non-empty resume and, when included, the end marker; in
   * Russian the head opens with the phrase the feedback looks for.
   */
  lemma PartsMention(jobDescription: string, position: string, company: string,
                     competencies: Option<seq<string>>, resume: Option<string>, language: string,
                     maxQuestions: int, style: string, marker: string, includeMarker: bool)
    ensures var p := Flatten(PromptParts(jobDescription, position, company, competencies, resume, language,
                                         maxQuestions, style, marker, includeMarker));
      Contains(p, company) && Contains(p, position) && Contains(p, jobDescription)
      && (resume.Some? && resume.value != "" ==> Contains(p, resume.value))
      && (includeMarker ==> Contains(p, marker))
      && (IsRussian(language) ==> FeedbackIsRussian(p))
  {
    var ru := IsRussian(language);
    var head := HeadParts(ru, jobDescription, position, company);
    var res := ResumeParts(ResumeIntro(ru), resume);
    var body := BodyParts(ru, competencies, maxQuestions, style);
    var mk := MarkerParts(MarkerBefore(ru), marker, MarkerAfter(ru), includeMarker);
    HeadMentioned(ru, jobDescription, position, company, res + (body + mk));
    if resume.Some? && resume.value != "" {
      ResumeMentioned(head, ResumeIntro(ru), resume, body + mk);
    }
    if includeMarker {
      MarkerMentioned(head, res, body, MarkerBefore(ru), marker, MarkerAfter(ru));
    }
    if ru {
      ContainsPartLeft(head, res + (body + mk), 0);
    }
  }
}
