/** The executor service's `execute_code` handler: a case-insensitive language
    guard, one run of the submitted program from a temporary `.py` file, and
    the result record `{success, output, error, parsed_output}` built from how
    that run ended.

    The child process is not run here: its outcome is a `ProcessOutcome`
    parameter. `json.loads` is a parameter `parse` (`None` where it raises).
    The temporary-file namespace is a `FileSystem` object whose `files` map the
    handler changes in place. */
module Executor {
  import opened Json

  type Path = string

  const Python := "python"
  const UnsupportedLanguage := "Only Python is supported"
  const TimedOutMessage := "Execution timed out"

  /** How `subprocess.run(['python', tmp_path], ..., timeout=5)` ends. */
  datatype ProcessOutcome =
    | Completed(returnCode: int, stdout: string, stderr: string)
      // the 5-second limit expired (`subprocess.TimeoutExpired`)
    | TimedOut
      // any other exception, carrying its `str(e)`
    | Failed(message: string)

  /** The handler's reply. `parsedOutput` is `None` when the dict has no
      `parsed_output` key at all, and `Some(Null)` when that key holds `None`. */
  datatype ExecResult = ExecResult(success: bool, output: string, error: string, parsedOutput: Option<Value>)

  /** `str.lower()` on the ASCII letters. */
  function LowerChar(c: char): char {
    if 'A' <= c <= 'Z' then (c as int + 32) as char else c
  }

  function Lower(s: string): string {
    seq(|s|, i requires 0 <= i < |s| => LowerChar(s[i]))
  }

  /** The guard: `language.lower() == "python"`. */
  predicate IsPython(language: string) {
    Lower(language) == Python
  }

  /** The guard accepts exactly the six-letter spellings of "python" in any
      mix of upper and lower case. */
  lemma IsPythonCaseInsensitive(language: string)
    ensures IsPython(language) <==>
      |language| == 6 &&
      forall i :: 0 <= i < 6 ==> language[i] == Python[i] || language[i] == "PYTHON"[i]
  {
    if IsPython(language) {
      forall i | 0 <= i < 6
        ensures language[i] == Python[i] || language[i] == "PYTHON"[i]
      {
        assert Lower(language)[i] == LowerChar(language[i]);
      }
    }
    if |language| == 6 && forall i :: 0 <= i < 6 ==> language[i] == Python[i] || language[i] == "PYTHON"[i] {
      forall i | 0 <= i < 6 ensures Lower(language)[i] == Python[i] {
        assert language[i] == Python[i] || language[i] == "PYTHON"[i];
      }
    }
  }

  /** The record of a failed request: no output and no `parsed_output` key. */
  function FailureRecord(message: string): (r: ExecResult)
    ensures !r.success && r.output == [] && r.parsedOutput.None?
    ensures r.error == message
  {
    ExecResult(false, "", message, None)
  }

  /** `json.loads(output)` falling back to `None` on any exception. */
  function ParseOrNull(parse: string -> Option<Value>, output: string): (v: Value)
    ensures parse(output).Some? ==> v == parse(output).value
    ensures parse(output).None? ==> v == Null
  {
    match parse(output)
    case Some(doc) => doc
    case None => Null
  }

  /** The record built after a run that completed: success is a zero return
      code, the output is stdout verbatim, stderr is reported only for a
      non-zero return code, and the output is always offered for parsing. */
  function CompletedRecord(returnCode: int, stdout: string, stderr: string, parse: string -> Option<Value>): (r: ExecResult)
    ensures r.success <==> returnCode == 0
    ensures r.output == stdout
    ensures r.success ==> r.error == []
    ensures !r.success ==> r.error == stderr
    ensures r.parsedOutput == Some(ParseOrNull(parse, stdout))
  {
    ExecResult(returnCode == 0, stdout, if returnCode != 0 then stderr else "", Some(ParseOrNull(parse, stdout)))
  }

  /** The record `execute_code` returns for a language tag and the way the
      child process ends. */
  function Execute(language: string, outcome: ProcessOutcome, parse: string -> Option<Value>): (r: ExecResult)
    ensures !IsPython(language) ==> r == FailureRecord(UnsupportedLanguage)
    ensures IsPython(language) && outcome.TimedOut? ==> r == FailureRecord(TimedOutMessage)
    ensures IsPython(language) && outcome.Failed? ==> r == FailureRecord(outcome.message)
    ensures IsPython(language) && outcome.Completed? ==>
      r == CompletedRecord(outcome.returnCode, outcome.stdout, outcome.stderr, parse)
    // only a completed run has a `parsed_output` key
    ensures r.parsedOutput.Some? <==> IsPython(language) && outcome.Completed?
    // a successful record is a clean zero exit and never carries an error
    ensures r.success <==> IsPython(language) && outcome.Completed? && outcome.returnCode == 0
    ensures r.success ==> r.error == []
    // a record without parsed output has no output either
    ensures r.parsedOutput.None? ==> !r.success && r.output == []
  {
    if !IsPython(language) then FailureRecord(UnsupportedLanguage)
    else
      match outcome
      case Completed(rc, out, err) => CompletedRecord(rc, out, err, parse)
      case TimedOut => FailureRecord(TimedOutMessage)
      case Failed(message) => FailureRecord(message)
  }

  predicate IsTempName(p: Path) {
    |p| >= 3 && p[|p| - 3..] == ".py"
  }

  /** A name longer than every name in use is not in use. */
  lemma {:induction false} LongerThanAll(names: set<Path>) returns (p: Path)
    ensures forall q :: q in names ==> |q| < |p|
    decreases names
  {
    if names == {} {
      p := "";
    } else {
      var x :| x in names;
      var shorter := LongerThanAll(names - {x});
      p := if |shorter| > |x| then shorter else x + "_";
    }
  }

  /** The files the handler can see: path to contents. */
  class FileSystem {
    var files: map<Path, string>

    constructor (files: map<Path, string>)
      ensures this.files == files
    {
      this.files := files;
    }

    /** `tempfile.NamedTemporaryFile(mode="w", suffix=".py", delete=False)`
        followed by `write(code)`: a fresh `.py` path holding `code`. */
    method CreateTemp(code: string) returns (p: Path)
      modifies this
      ensures p !in old(files) && IsTempName(p)
      ensures files == old(files)[p := code]
    {
      ghost var longer := LongerThanAll(files.Keys);
      ghost var unused := longer + ".py";
      assert unused !in files by {
        assert |unused| > |longer|;
      }
      assert unused[|unused| - 3..] == ".py";
      p :| p !in files && IsTempName(p);
      files := files[p := code];
    }

    /** `os.remove(p)`. */
    method Remove(p: Path)
      requires p in files
      modifies this
      ensures files == old(files) - {p}
    {
      files := files - {p};
    }
  }

  /** `execute_code` as written: the temporary file is removed only after a
      run that completed; a timeout or another exception returns with the
      file still in place, which `leaked` names. */
  method ExecuteCode(fs: FileSystem, code: string, language: string, outcome: ProcessOutcome,
                     parse: string -> Option<Value>)
    returns (r: ExecResult, ghost leaked: Option<Path>)
    modifies fs
    ensures r == Execute(language, outcome, parse)
    ensures leaked.Some? <==> IsPython(language) && !outcome.Completed?
    ensures leaked.None? ==> fs.files == old(fs.files)
    ensures leaked.Some? ==>
      leaked.value !in old(fs.files) && IsTempName(leaked.value) &&
      fs.files == old(fs.files)[leaked.value := code]
  {
    if !IsPython(language) {
      return FailureRecord(UnsupportedLanguage), None;
    }
    var tmp := fs.CreateTemp(code);
    match outcome {
      case Completed(rc, out, err) =>
        fs.Remove(tmp);
        assert fs.files == old(fs.files);
        r, leaked := CompletedRecord(rc, out, err, parse), None;
      case TimedOut =>
        r, leaked := FailureRecord(TimedOutMessage), Some(tmp);
      case Failed(message) =>
        r, leaked := FailureRecord(message), Some(tmp);
    }
  }

  /** `execute_code` with the removal in a `finally` clause: the same record,
      and the temporary file is gone on every path. */
  method ExecuteCodeWithCleanup(fs: FileSystem, code: string, language: string, outcome: ProcessOutcome,
                                parse: string -> Option<Value>)
    returns (r: ExecResult)
    modifies fs
    ensures r == Execute(language, outcome, parse)
    ensures fs.files == old(fs.files)
  {
    if !IsPython(language) {
      return FailureRecord(UnsupportedLanguage);
    }
    var tmp := fs.CreateTemp(code);
    match outcome {
      case Completed(rc, out, err) => r := CompletedRecord(rc, out, err, parse);
      case TimedOut => r := FailureRecord(TimedOutMessage);
      case Failed(message) => r := FailureRecord(message);
    }
    fs.Remove(tmp);
    assert fs.files == old(fs.files);
  }

  /** A timed-out run on an empty namespace leaves one file behind as the
      handler is written. */
  method TimeoutLeavesTempFile(code: string) returns (left: nat)
    ensures left == 1
  {
    var fs := new FileSystem(map[]);
    var r, leaked := ExecuteCode(fs, code, Python, TimedOut, _ => None);
    left := |fs.files|;
  }

  /** With the cleanup on every path, the same run leaves nothing behind. */
  method TimeoutLeavesNoFileWithCleanup(code: string) returns (left: nat)
    ensures left == 0
  {
    var fs := new FileSystem(map[]);
    var r := ExecuteCodeWithCleanup(fs, code, Python, TimedOut, _ => None);
    left := |fs.files|;
  }
}
