/** The server and the executor together: the server always sends its
    program with the language "python", and the executor's `error` field alone
    decides whether the server reports an execution error. */
module Pipeline {
  import opened Json
  import opened PyText
  import opened Executor
  import opened Server

  /** The reply the server gets when the executor's answer reaches it in time
      (see `Call`) and the child process ended with `outcome`. */
  function ReplyFor(outcome: ProcessOutcome, parse: string -> Option<Value>): (reply: ExecutorReply)
    ensures reply.Reply? && reply.result == Execute(Server.Language, outcome, parse)
    // the language the server sends always passes the executor's guard
    ensures reply.result.success <==> outcome.Completed? && outcome.returnCode == 0
  {
    assert IsPython(Server.Language) by {
      assert Lower(Server.Language) == Python;
    }
    Reply(Execute(Server.Language, outcome, parse))
  }

  /** The server reports an execution error exactly for a timeout, for another
      exception with a non-empty message, and for a non-zero exit that wrote
      to stderr. */
  lemma ExecutionErrorReported(prompt: string, outcome: ProcessOutcome, parse: string -> Option<Value>)
    ensures var s := Events(prompt, ReplyFor(outcome, parse));
      (s.events[1].Text? && s.events[1].message.Literal? &&
       |ExecutionErrorPrefix| <= |s.events[1].message.text| &&
       s.events[1].message.text[..|ExecutionErrorPrefix|] == ExecutionErrorPrefix)
      <==>
      || outcome.TimedOut?
      || (outcome.Failed? && outcome.message != [])
      || (outcome.Completed? && outcome.returnCode != 0 && outcome.stderr != [])
  {
    var reply := ReplyFor(outcome, parse);
    var s := Events(prompt, reply);
    if HasError(reply.result) {
      assert (ExecutionErrorPrefix + reply.result.error)[..|ExecutionErrorPrefix|] == ExecutionErrorPrefix;
    } else if Truthy(ParsedField(reply.result)) {
      assert s.events[1] == Text(Yaml(ParsedField(reply.result)));
    } else {
      assert s.events[1] == Text(Literal(NoValidOutput));
      assert NoValidOutput[..|ExecutionErrorPrefix|] != ExecutionErrorPrefix by {
        assert NoValidOutput[0] != ExecutionErrorPrefix[0];
      }
    }
  }

  /** A run that exits non-zero without writing to stderr carries no error,
      although it did not succeed: the server does not report it as an
      execution error and falls through to the parsed output. */
  lemma SilentFailureFallsThrough(prompt: string, returnCode: int, stdout: string, parse: string -> Option<Value>)
    requires returnCode != 0
    ensures var reply := ReplyFor(Completed(returnCode, stdout, ""), parse);
      && !reply.result.success
      && reply.result.error == []
      && Events(prompt, reply).events[1] ==
           if Truthy(ParseOrNull(parse, stdout)) then Text(Yaml(ParseOrNull(parse, stdout)))
           else Text(Literal(NoValidOutput))
  {
    var reply := ReplyFor(Completed(returnCode, stdout, ""), parse);
    assert ParsedField(reply.result) == ParseOrNull(parse, stdout);
  }

  /** A non-empty prompt whose program completes and prints the document the
      server synthesised yields the code, the YAML text, the word-count image
      and "Completed", in that order. */
  lemma {:induction false} MetricsRunStream(raw: string, stdout: string, stderr: string, parse: string -> Option<Value>)
    requires !AllSpace(raw)
    requires parse(stdout) == Some(Document(MetricsProgram(Strip(raw))))
    ensures StreamQuery(Some(raw), ReplyFor(Completed(0, stdout, stderr), parse)) ==
      EventStream(Stream([
        Code(MetricsProgram(Strip(raw)), Server.Language),
        Text(Yaml(Document(MetricsProgram(Strip(raw))))),
        Image(Num(WordStarts(Strip(raw), true))),
        Done], Finished))
  {
    var prompt := Strip(raw);
    var reply := ReplyFor(Completed(0, stdout, stderr), parse);
    assert ParsedField(reply.result) == Document(MetricsProgram(prompt));
    DocumentWordCount(prompt);
  }

  /** The example of a two-word prompt: two words, eleven characters, and an
      image for the word count 2. */
  lemma HelloWorld(stdout: string, parse: string -> Option<Value>)
    requires parse(stdout) == Some(Document(MetricsProgram("hello world")))
    ensures StreamQuery(Some(" hello world\n"), ReplyFor(Completed(0, stdout, ""), parse)) ==
      EventStream(Stream([
        Code(MetricsProgram("hello world"), Server.Language),
        Text(Yaml(Document(MetricsProgram("hello world")))),
        Image(Num(2)),
        Done], Finished))
    ensures LookupPath(Document(MetricsProgram("hello world")), CharactersPath) == Found(Num(11))
  {
    StripHelloWorld();
    HelloWorldWordStarts();
    assert !IsSpace(" hello world\n"[1]);
    MetricsRunStream(" hello world\n", stdout, "", parse);
    DocumentCharacterCount("hello world");
    assert forall i :: 0 <= i < |"hello world"| ==> "hello world"[i] <= '\U{FFFF}';
  }

  lemma StripHelloWorld()
    ensures Strip(" hello world\n") == "hello world"
  {
    var raw := " hello world\n";
    var t := "hello world\n";
    assert raw[1..] == t;
    assert raw[0] == ' ' && t[0] == 'h';
    assert LeadingSpace(t) == 0;
    assert LeadingSpace(raw) == 1;
    assert t[..|t| - 1] == "hello world";
    assert t[|t| - 1] == '\n';
    assert "hello world"[10] == 'd';
    assert TrailingSpace("hello world") == 0;
    assert TrailingSpace(t) == 1;
  }

  lemma HelloWorldWordStarts()
    ensures WordStarts("hello world", true) == 2
  {
    var s := "hello world";
    assert s[..5] == "hello" && s[5] == ' ' && s[6..] == "world";
    WordThenSpace(s, 5);
    SingleWord("world");
  }

  /** The time limits, in milliseconds: the child process's `timeout=5` in the
      executor, and the five-second default timeout of the `httpx.AsyncClient()`
      the server posts with. */
  const RunLimitMs := 5000
  const ClientTimeoutMs := 5000

  /** `run_code_in_executor` with a client that gives up `clientTimeoutMs`
      milliseconds after sending the request. The executor answers `answerMs`
      milliseconds after it was sent; a later answer is lost to a read
      timeout, whose `str(e)` is `timeoutMessage`. */
  function Call(outcome: ProcessOutcome, parse: string -> Option<Value>, answerMs: nat,
                clientTimeoutMs: nat, timeoutMessage: string): (reply: ExecutorReply)
    ensures reply.Reply? <==> answerMs <= clientTimeoutMs
    ensures reply.Reply? ==> reply == ReplyFor(outcome, parse)
    ensures reply.ContactError? ==> reply.message == timeoutMessage
  {
    if answerMs <= clientTimeoutMs then ReplyFor(outcome, parse) else ContactError(timeoutMessage)
  }

  /** As written, a timed-out run is never reported as such: the executor
      answers only after its child has run for the whole limit, which is the
      client's own timeout, so the server streams the contact error instead of
      "Execution timed out", and no "Completed". */
  lemma TimeoutLostToClient(raw: string, parse: string -> Option<Value>, answerMs: nat, timeoutMessage: string)
    requires !AllSpace(raw)
    // the child was started after the request arrived and killed after the limit
    requires answerMs > RunLimitMs
    ensures var s := StreamQuery(Some(raw), Call(TimedOut, parse, answerMs, ClientTimeoutMs, timeoutMessage));
      && s == EventStream(Stream([
           Code(MetricsProgram(Strip(raw)), Server.Language),
           Text(Literal(ContactErrorPrefix + timeoutMessage))], Finished))
      && Done !in s.stream.events
      && Text(Literal(ExecutionErrorPrefix + TimedOutMessage)) !in s.stream.events
  {
    var reply := Call(TimedOut, parse, answerMs, ClientTimeoutMs, timeoutMessage);
    assert reply == ContactError(timeoutMessage);
    var contact := ContactErrorPrefix + timeoutMessage;
    var events := [Code(MetricsProgram(Strip(raw)), Server.Language), Text(Literal(contact))];
    assert Events(Strip(raw), reply) == Stream(events, Finished);
    // the contact error differs from both other texts in its seventh character
    assert contact[6] == 'c';
    assert CompletedText != contact;
    assert (ExecutionErrorPrefix + TimedOutMessage)[6] == 'i';
    assert ExecutionErrorPrefix + TimedOutMessage != contact;
  }

  /** With a client that waits for the executor's answer, a program that runs
      past the time limit ends its stream with "Completed", after reporting the
      timeout as an execution error. */
  lemma TimeoutStream(raw: string, parse: string -> Option<Value>, answerMs: nat,
                      clientTimeoutMs: nat, timeoutMessage: string)
    requires !AllSpace(raw)
    requires answerMs <= clientTimeoutMs
    ensures StreamQuery(Some(raw), Call(TimedOut, parse, answerMs, clientTimeoutMs, timeoutMessage)) ==
      EventStream(Stream([
        Code(MetricsProgram(Strip(raw)), Server.Language),
        Text(Literal(ExecutionErrorPrefix + TimedOutMessage)),
        Done], Finished))
  {
  }
}
