/** The `/stream-query` endpoint: it strips the prompt, rejects an empty one,
    and otherwise streams the events of `event_generator`. The generator
    yields the synthesised program, waits for the executor's reply, and maps
    that reply to text and image events.

    The executor call is a parameter `reply`, either the exception raised
    while contacting the executor or the record it returned. `yaml.dump` and
    `create_mock_image` are kept as the values they are applied to: a
    `Yaml(doc)` message and an `Image(wordCount)` event. */
module Server {
  import opened Json
  import opened PyText
  import Executor

  const EmptyPromptError := "Prompt is empty"
  const Language := "python"
  const ContactErrorPrefix := "Error contacting executor: "
  const ExecutionErrorPrefix := "Error in execution:\n"
  const NoValidOutput := "No valid output received from executor."
  const CompletedText := "Completed"

  /** Where the program reads its word count from: `["analysis"]["metrics"]["words"]`. */
  const WordsPath: seq<string> := ["analysis", "metrics", "words"]
  const CharactersPath: seq<string> := ["analysis", "metrics", "characters"]
  const ResultsPath: seq<string> := ["analysis", "results"]

  /** The program the endpoint synthesises for a (stripped) prompt. */
  datatype Program = MetricsProgram(prompt: string)

  /** The document the synthesised program prints with `json.dumps`. */
  function Document(program: Program): (doc: Value)
    ensures Truthy(doc)
  {
    var doc := Obj(map["analysis" := Analysis(program.prompt)]);
    assert "analysis" in doc.fields;
    doc
  }

  /** The text carried by a `text` event. */
  datatype Message =
    | Literal(text: string)
      // "Results in YAML format:\n" followed by `yaml.dump(document)`
    | Yaml(document: Value)

  /** One server-sent event. An `Image` event's url is the rendering of the
      label "Word count: " followed by `str(wordCount)`. */
  datatype Event =
    | Code(program: Program, language: string)
    | Text(message: Message)
    | Image(wordCount: Value)

  const Done := Text(Literal(CompletedText))

  /** How the generator ends: by returning, or by an uncaught exception (a
      `TypeError` from subscripting a parsed output that is not a dict). */
  datatype StreamEnd = Finished | Aborted

  datatype Stream = Stream(events: seq<Event>, end: StreamEnd)

  /** The outcome of `run_code_in_executor`. */
  datatype ExecutorReply =
    | ContactError(message: string)
    | Reply(result: Executor.ExecResult)

  /** The endpoint's answer: the error object, or an event stream. */
  datatype Response = ErrorObject(error: string) | EventStream(stream: Stream)

  /** `result_dict.get("error")`, which is falsy exactly when empty. */
  predicate HasError(r: Executor.ExecResult) {
    r.error != []
  }

  /** `result_dict.get("parsed_output")`: `None` when the key is missing. */
  function ParsedField(r: Executor.ExecResult): Value {
    match r.parsedOutput
    case Some(v) => v
    case None => Null
  }

  predicate HasImage(events: seq<Event>) {
    exists i :: 0 <= i < |events| && events[i].Image?
  }

  /** `event_generator` for a prompt and the executor's reply. */
  function Events(prompt: string, reply: ExecutorReply): (s: Stream)
    // one code event, first, carrying the program and "python"
    ensures 2 <= |s.events| <= 4
    ensures s.events[0] == Code(MetricsProgram(prompt), Language)
    ensures forall i :: 0 < i < |s.events| ==> !s.events[i].Code?
    // a failure to contact the executor: one text event and no "Completed"
    ensures reply.ContactError? ==>
      s == Stream([s.events[0], Text(Literal(ContactErrorPrefix + reply.message))], Finished)
    // with a reply, a stream that finishes ends with "Completed"
    ensures reply.Reply? && s.end == Finished ==>
      3 <= |s.events| && s.events[|s.events| - 1] == Done
    ensures Done in s.events <==> reply.Reply? && s.end == Finished
    // an error wins over any parsed output, and `success` is never looked at
    ensures reply.Reply? && HasError(reply.result) ==>
      s == Stream([s.events[0], Text(Literal(ExecutionErrorPrefix + reply.result.error)), Done], Finished)
    // no error and no usable parsed output
    ensures reply.Reply? && !HasError(reply.result) && !Truthy(ParsedField(reply.result)) ==>
      s == Stream([s.events[0], Text(Literal(NoValidOutput)), Done], Finished)
    // no error and a truthy parsed output: its YAML rendering comes second
    ensures reply.Reply? && !HasError(reply.result) && Truthy(ParsedField(reply.result)) ==>
      s.events[1] == Text(Yaml(ParsedField(reply.result)))
    // an image only right after the YAML text, and only with a word count
    ensures HasImage(s.events) <==>
      reply.Reply? && !HasError(reply.result) && Truthy(ParsedField(reply.result)) &&
      LookupPath(ParsedField(reply.result), WordsPath).Found?
    ensures forall i :: 0 <= i < |s.events| && s.events[i].Image? ==>
      i == 2 && s.events[1] == Text(Yaml(ParsedField(reply.result))) &&
      LookupPath(ParsedField(reply.result), WordsPath) == Found(s.events[i].wordCount)
    // the stream breaks off only when the parsed output is not nested dicts
    ensures s.end == Aborted <==>
      reply.Reply? && !HasError(reply.result) && Truthy(ParsedField(reply.result)) &&
      LookupPath(ParsedField(reply.result), WordsPath).TypeError?
    ensures s.end == Aborted ==> |s.events| == 2
    // a dict without the word count: the `KeyError` is swallowed
    ensures (reply.Reply? && !HasError(reply.result) && Truthy(ParsedField(reply.result)) &&
             LookupPath(ParsedField(reply.result), WordsPath).KeyError?) ==>
      s == Stream([s.events[0], Text(Yaml(ParsedField(reply.result))), Done], Finished)
  {
    var code := Code(MetricsProgram(prompt), Language);
    match reply
    case ContactError(message) =>
      Stream([code, Text(Literal(ContactErrorPrefix + message))], Finished)
    case Reply(r) =>
      if HasError(r) then
        Stream([code, Text(Literal(ExecutionErrorPrefix + r.error)), Done], Finished)
      else if Truthy(ParsedField(r)) then
        var yaml := Text(Yaml(ParsedField(r)));
        match LookupPath(ParsedField(r), WordsPath)
        case Found(wordCount) =>
          assert [code, yaml, Image(wordCount), Done][2].Image?;
          Stream([code, yaml, Image(wordCount), Done], Finished)
        case KeyError => Stream([code, yaml, Done], Finished)
        case TypeError => Stream([code, yaml], Aborted)
      else
        Stream([code, Text(Literal(NoValidOutput)), Done], Finished)
  }

  /** `stream_query` for a request body whose "prompt" is `prompt` (`None`
      when the key is missing) and the reply the executor would give. */
  function StreamQuery(prompt: Option<string>, reply: ExecutorReply): (r: Response)
    ensures var raw := match prompt case Some(p) => p case None => "";
      && (r.ErrorObject? <==> AllSpace(raw))
      && (r.ErrorObject? ==> r.error == EmptyPromptError)
      && (r.EventStream? ==> r.stream == Events(Strip(raw), reply) && Strip(raw) != [])
  {
    var raw := match prompt case Some(p) => p case None => "";
    var stripped := Strip(raw);
    if stripped == [] then ErrorObject(EmptyPromptError)
    else EventStream(Events(stripped, reply))
  }

  /** `success` is never consulted: flipping it changes no event. */
  lemma SuccessIgnored(prompt: string, r: Executor.ExecResult, success: bool)
    ensures Events(prompt, Reply(r.(success := success))) == Events(prompt, Reply(r))
  {
  }

  /** `len(prompt)` inside the synthesised program. The prompt reaches the
      program as the `json.dumps` literal, which escapes every character above
      U+FFFF as a UTF-16 surrogate pair; a Python string literal keeps the
      pair as two code points, so such a character counts twice. Surrogates
      are not whitespace, so the words are the same. */
  function Utf16Length(s: string): (n: nat)
    ensures |s| <= n <= 2 * |s|
    ensures n == |s| <==> forall i :: 0 <= i < |s| ==> s[i] <= '\U{FFFF}'
    ensures n == 2 * |s| <==> forall i :: 0 <= i < |s| ==> s[i] > '\U{FFFF}'
  {
    if s == [] then 0
    else
      var n := Utf16Length(s[1..]);
      assert forall i :: 0 < i < |s| ==> s[i] == s[1..][i - 1];
      (if s[0] > '\U{FFFF}' then 2 else 1) + n
  }

  /** The parts of the document the server and its client look at. */
  function Analysis(p: string): Value {
    var words := Num(|Words(p)|);
    var characters := Num(Utf16Length(p));
    Obj(map[
      "input" := Str("User prompt: " + p),
      "metrics" := Obj(map["words" := words, "characters" := characters]),
      "results" := Arr([
        Obj(map["type" := Str("word_count"), "value" := words]),
        Obj(map["type" := Str("char_count"), "value" := characters])
      ])
    ])
  }

  /** The word count the synthesised program reports, where the server reads
      it, is the number of maximal whitespace-free runs of the prompt. */
  lemma {:induction false} DocumentWordCount(prompt: string)
    ensures LookupPath(Document(MetricsProgram(prompt)), WordsPath) == Found(Num(WordStarts(prompt, true)))
  {
    var words := Num(|Words(prompt)|);
    var metrics := Obj(map["words" := words, "characters" := Num(Utf16Length(prompt))]);
    assert Subscript(Document(MetricsProgram(prompt)), "analysis") == Found(Analysis(prompt));
    assert Subscript(Analysis(prompt), "metrics") == Found(metrics);
    assert Subscript(metrics, "words") == Found(words);
    LookupPathAppend(Document(MetricsProgram(prompt)), ["analysis", "metrics"], ["words"]);
    assert WordsPath == ["analysis", "metrics"] + ["words"];
    WordCountIsWordStarts(prompt);
  }

  /** The character count the program reports is the prompt's length in
      UTF-16 code units: its code points, plus one for each above U+FFFF. */
  lemma DocumentCharacterCount(prompt: string)
    ensures LookupPath(Document(MetricsProgram(prompt)), CharactersPath) == Found(Num(Utf16Length(prompt)))
  {
    var metrics := Obj(map["words" := Num(|Words(prompt)|), "characters" := Num(Utf16Length(prompt))]);
    assert Subscript(Document(MetricsProgram(prompt)), "analysis") == Found(Analysis(prompt));
    assert Subscript(Analysis(prompt), "metrics") == Found(metrics);
    assert LookupPath(metrics, ["characters"]) == Found(Num(Utf16Length(prompt)));
  }

  /** A prompt with an emoji: four code points, five characters reported. */
  lemma EmojiCountsTwice()
    ensures LookupPath(Document(MetricsProgram("hi \U{1F600}")), CharactersPath) == Found(Num(5))
  {
    DocumentCharacterCount("hi \U{1F600}");
    EmojiLength();
  }

  lemma EmojiLength()
    ensures Utf16Length("hi \U{1F600}") == 5
  {
    var p := "hi \U{1F600}";
    assert p[1..] == "i \U{1F600}" && p[1..][1..] == " \U{1F600}" && p[1..][1..][1..] == "\U{1F600}";
    assert "\U{1F600}"[1..] == [];
  }

  /** The `results` list repeats the two metrics, word count first. */
  lemma {:induction false} DocumentResults(prompt: string)
    ensures LookupPath(Document(MetricsProgram(prompt)), ResultsPath) == Found(Arr([
      Obj(map["type" := Str("word_count"), "value" := Num(WordStarts(prompt, true))]),
      Obj(map["type" := Str("char_count"), "value" := Num(Utf16Length(prompt))])]))
  {
    assert Subscript(Document(MetricsProgram(prompt)), "analysis") == Found(Analysis(prompt));
    WordCountIsWordStarts(prompt);
  }

  /** A stripped, non-empty prompt has at least one word and never more words
      than characters. */
  lemma WordsOfStrippedPrompt(prompt: string)
    requires Strip(prompt) == prompt && prompt != []
    ensures 1 <= WordStarts(prompt, true) <= |prompt|
  {
    WordCountIsWordStarts(prompt);
    assert !IsSpace(prompt[0]);
  }
}
