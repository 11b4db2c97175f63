# Prompt-to-event streaming service: Dafny model of its core

The service takes a free-form prompt and synthesises a small Python program
that reports the prompt's word and character counts. It runs that program in
a separate executor service and streams the outcome back to the caller as
server-sent events. This project models the two decision procedures at the
heart of that flow and proves what they promise:

- **The streaming endpoint** (`stream_query` and its `event_generator` in
  `api/server.py`). It strips the prompt and rejects an empty one. The program
  it synthesises prints a JSON document of metrics. The endpoint then maps the
  executor's reply to an ordered list of `code`, `text` and `image` events.
  These are pure functions in `server.dfy`, over the Python string built-ins
  in `pytext.dfy` and the JSON values in `json.dfy`.
- **The executor** (`execute_code` in `executor/executor.py`). It has a
  case-insensitive language guard, a temporary `.py` file, one child process
  with a 5-second limit, and the result record
  `{success, output, error, parsed_output}`. The record construction is pure
  functions. The temporary-file lifecycle is a `FileSystem` class whose
  `files` map the handler methods change in place (`executor.dfy`).
- **The two together** (`pipeline.dfy`). The server always sends the language
  "python". The executor's `error` field alone decides whether the server
  reports an execution error. A non-zero exit with an empty stderr therefore
  falls through to the parsed-output branch.

Foreign calls are parameters:
- the outcome of `subprocess.run` is a `ProcessOutcome`
  (`Completed(rc, stdout, stderr) | TimedOut | Failed(msg)`);
- `json.loads` is a function `parse: string -> Option<Value>` (`None` where it raises);
- the HTTP call to the executor is an `ExecutorReply` (`ContactError(msg) | Reply(record)`).

`yaml.dump` and `create_mock_image` are represented by the value they are
applied to: a `Yaml(doc)` text message and an `Image(wordCount)` event.

Python truthiness is modelled exactly on decoded JSON values (`Json.Truthy`).
Python subscripting is modelled with its two exceptions (`Json.Subscript`):
`KeyError` on a dict without the key, and `TypeError` on anything that is not
a dict. `event_generator` catches only `KeyError`. A truthy parsed output that
is not nested dicts therefore ends the stream with an uncaught exception
right after the YAML text. The model states this as `StreamEnd.Aborted`.

Behaviours of the code worth noting:
- A failure to contact the executor ends the stream without the final
  "Completed" event (api/server.py:99-104).
- The temporary file is not deleted on a timeout or another exception
  (executor/executor.py:37). This is listed under Findings.
- The server's HTTP client keeps httpx's default five-second timeout
  (api/server.py:36), which is also the child process's limit
  (executor/executor.py:33). A timed-out run therefore reaches the user as a
  contact error, not as "Execution timed out". This is listed under Findings.
- The character count the synthesised program reports is `len` of the
  `json.dumps` literal of the prompt (api/server.py:71, :78). That literal
  spells each character above U+FFFF as a surrogate pair, so such a
  character counts twice (`Server.Utf16Length`).
- The executor reports no separate timed-out flag, only the error text
  "Execution timed out".
- The server never looks at `success`. A non-zero exit with an empty stderr
  is not reported as an execution error.

## Model

| member | source | states |
|---|---|---|
| `PyText.Strip` | api/server.py:62 | `strip()` yields the longest infix that neither starts nor ends with whitespace; all that is cut off on either side is whitespace; the result is empty exactly when the prompt is all whitespace |
| `PyText.StripIdempotent` | api/server.py:62 | stripping an already stripped prompt changes nothing |
| `PyText.Words` | api/server.py:77 | `split()` yields non-empty, whitespace-free words, no more of them than characters, and none at all exactly for an all-whitespace text |
| `PyText.WordCountIsWordStarts` | api/server.py:77 | `len(prompt.split())` equals an independent count: the number of non-whitespace characters at the start or right after whitespace (the maximal runs) |
| `Server.Document` | api/server.py:73-87 | the document the synthesised program prints is truthy, so the server never takes the "no valid output" branch for it |
| `Server.DocumentWordCount` | api/server.py:75-78 | the document's `["analysis"]["metrics"]["words"]`, where the server reads it, is the number of maximal whitespace-free runs of the prompt |
| `Server.Utf16Length` | api/server.py:71-78 | `len(prompt)` in the program counts the `json.dumps` literal's code points: between one and two per character of the prompt, exactly one each when no character is above U+FFFF, and exactly two each when all are |
| `Server.DocumentCharacterCount` | api/server.py:78 | the document's `characters` metric is the prompt's length in UTF-16 code units (`Utf16Length`) |
| `Server.EmojiCountsTwice` | api/server.py:71-78 | the four-character prompt "hi 😀" reports five characters |
| `Server.DocumentResults` | api/server.py:80-83 | the `results` list repeats the two metrics, word count first, then character count |
| `Server.WordsOfStrippedPrompt` | api/server.py:62-77 | a stripped, non-empty prompt has at least one word and at most as many words as characters |
| `Server.StreamQuery` | api/server.py:59-65 | an empty or whitespace-only prompt (or a missing one) yields only the error object "Prompt is empty"; any other yields the event stream of the stripped prompt |
| `Server.Events` | api/server.py:90-135 | the first event is `code` with the program and "python", and no later event is `code`. A contact failure gives exactly [code, "Error contacting executor: …"] and no "Completed". A non-empty `error` gives exactly one "Error in execution:\n…" text and no image, whatever `parsed_output` holds. An empty `error` with a falsy `parsed_output` gives exactly one "No valid output…" text. Otherwise the YAML text comes second, and an image follows it immediately exactly when `["analysis"]["metrics"]["words"]` is found. A `KeyError` gives exactly [code, YAML text, "Completed"]. A non-dict aborts the stream after the YAML text. Every finished stream with a reply ends with "Completed" and has 3 or 4 events |
| `Json.Truthy` | api/server.py:106-111 | Python truthiness: a decoded value is false exactly when it is `None`, `False`, `0`, `""`, `[]` or `{}` |
| `Json.Subscript` | api/server.py:117-125 | `x[key]` yields the key's value exactly when `x` is a dict holding the key, raises `TypeError` exactly when `x` is not a dict, and `KeyError` otherwise |
| `Json.LookupPath` | api/server.py:117-125 | a chain of subscripts: no keys yields the value itself, one key is one subscript, an exception needs at least one key, and a non-dict fails with `TypeError` at the first key |
| `Json.LookupPathAppend` | api/server.py:118 | a chain of subscripts can be split anywhere: the prefix's result, then the rest looked up in it; an exception in the prefix is the chain's result |
| `Server.SuccessIgnored` | api/server.py:106-130 | the reply's `success` field never changes the events |
| `Executor.IsPythonCaseInsensitive` | executor/executor.py:19 | the guard accepts exactly the six-letter spellings of "python" in any mix of upper and lower case |
| `Executor.FailureRecord` | executor/executor.py:53-56 | a failure record has `success` false, empty output, the given error and no `parsed_output` key |
| `Executor.ParseOrNull` | executor/executor.py:46-49 | `parsed_output` is the parse of the output when it parses and `None` otherwise; it never fails |
| `Executor.CompletedRecord` | executor/executor.py:39-49 | after a completed run, `success` holds iff the return code is 0, `output` is stdout verbatim, `error` is stderr for a non-zero code and empty for code 0 (even with a non-empty stderr), and `parsed_output` is always present |
| `Executor.Execute` | executor/executor.py:15-56 | an unsupported language gives "Only Python is supported"; a timeout gives "Execution timed out"; another exception gives its message, each with no output and no `parsed_output`. Only a completed run has `parsed_output`. `success` holds iff the language passes and the run exits 0, and a successful record never carries an error |
| `Executor.FileSystem.CreateTemp` | executor/executor.py:24-26 | a fresh `.py` path not in use before, now holding the code; no other file changes |
| `Executor.FileSystem.Remove` | executor/executor.py:37 | the path is gone and no other file changes |
| `Executor.ExecuteCode` | executor/executor.py:19-56 | the record is `Execute`'s. A rejected language and a completed run leave the files unchanged (no file is created for a rejected language). A timeout or another exception leaves exactly one new `.py` file holding the code |
| `Executor.TimeoutLeavesTempFile` | executor/executor.py:53-54 | a timed-out run on an empty namespace leaves one file behind |
| `Executor.ExecuteCodeWithCleanup` | executor/executor.py:22-56 | with the removal on every path: the same record, and the files unchanged on every outcome |
| `Executor.TimeoutLeavesNoFileWithCleanup` | executor/executor.py:53-54 | with the removal on every path, the same timed-out run leaves nothing behind |
| `Pipeline.ReplyFor` | api/server.py:37 | when the answer arrives, the server's request has always passed the executor's guard, so its reply succeeds iff the run completed with return code 0 |
| `Pipeline.Call` | api/server.py:36-39 | the record arrives exactly when the executor answers within the client's timeout, and it is then `ReplyFor`'s; otherwise the call ends in a contact error carrying the timeout's message |
| `Pipeline.ExecutionErrorReported` | api/server.py:106-110 | the server reports "Error in execution:" exactly for a timeout, for another exception with a non-empty message, and for a non-zero exit that wrote to stderr |
| `Pipeline.SilentFailureFallsThrough` | executor/executor.py:42 | a non-zero exit with empty stderr has `success` false but an empty `error`, so the server's second event is the YAML text or "No valid output…", not an execution error |
| `Pipeline.MetricsRunStream` | api/server.py:90-135 | a non-empty prompt whose program completes and prints the synthesised document streams code, YAML text, an image of its word count, and "Completed" |
| `Pipeline.HelloWorld` | api/server.py:62-135 | the prompt " hello world\n" streams code, YAML text, an image for the word count 2, and "Completed"; its character count is 11 |
| `Pipeline.TimeoutLostToClient` | api/server.py:36-37 | as written, a timed-out run (answered after the 5-second limit) streams only code and "Error contacting executor: …"; neither "Execution timed out" nor "Completed" is sent |
| `Pipeline.TimeoutStream` | executor/executor.py:53-54 | with a client that waits for the answer, a timed-out program streams code, "Error in execution:\nExecution timed out" and "Completed" |

## Left out

- HTTP and application wiring: FastAPI routing, CORS, the static mount, the `/` page, `/healthz` and the uvicorn entry points. These are framework configuration with no decision logic.
- The HTTP call in `run_code_in_executor`, `raise_for_status` and the JSON transport of the reply. These are network I/O. Their outcome is the `ExecutorReply` parameter, with the executor's record carried over unchanged.
- `asyncio.sleep(1)` between the `code` event and the executor call. It is a delay with no effect on the events or their order.
- Client disconnects and cancellation of the generator, and concurrency between requests. Each request is modelled on its own.
- `yaml.dump` and `create_mock_image` (PIL and base64). These are rendering libraries. The model keeps their inputs: the parsed document, and the word count behind the label "Word count: …".
- `json.dumps` of the prompt into the program's source, and of each event's data. These are library serialisers. The program is represented by the prompt it embeds, and the document it prints by `Server.Document`. The one effect of the embedding on the document, surrogate pairs for characters above U+FFFF, is kept in `Server.Utf16Length`; the `input` field is the prompt itself, since `json.loads` joins the pairs again.
- `json.loads`. It is a library parser, represented by the `parse` parameter. JSON numbers are integers only, so floats (and their truthiness, `0.0` being falsy) are not modelled. Objects are maps, so key order, which only the YAML rendering shows, is not modelled.
- Pipeline.ExecutionErrorReported: its timeout case holds for a client that waits for the answer (`Pipeline.ReplyFor`); with the source's five-second client a timed-out run ends in a contact error instead (`Pipeline.TimeoutLostToClient`).
- The time the executor takes to answer. It is the parameter `answerMs` of `Pipeline.Call`; only its relation to the two five-second limits matters.
- `subprocess.run`, the real 5-second timer, killing the child on timeout, and the random naming of `tempfile`. These are OS process and filesystem calls. The run's outcome is a parameter, and the temporary name is any unused path ending in ".py".
- OS errors while creating, writing or removing the temporary file. These would also become the `str(e)` failure record. The model lets only the process run fail, so a file whose creation failed is never counted as left behind.
- A request body that is not JSON, a JSON body that is not an object (`[1]`, `"x"`: `body.get` raises `AttributeError`, api/server.py:62), or one whose "prompt" is not a string. All raise before any event. The model takes the prompt as an optional string.
- `str.lower()` on non-ASCII letters. Only ASCII letters are case-mapped, and no non-ASCII character lower-cases to a letter of "python", so the guard's verdict is the same.
- The interactive test client (test/test_client.py) is not part of this model. It expects a message shape the server never produces.

## Findings

| source | as written | input that shows it | evidently intended | confidence | as-written member | corrected member |
|---|---|---|---|---|---|---|
| executor/executor.py:37 | the temporary file is removed only after `subprocess.run` returns; on `TimeoutExpired` or another exception the handler returns with the file still on disk | a program that loops forever (outcome `TimedOut`) on an empty namespace leaves one `.py` file | the file is deleted on every path: the file is created with `delete=False` (executor/executor.py:24) and the handler's own "Clean up temp file" step (executor/executor.py:36-37) is its only removal, so it belongs in a `finally` clause | medium; not executed | `Executor.ExecuteCode`, `Executor.TimeoutLeavesTempFile` | `Executor.ExecuteCodeWithCleanup`, `Executor.TimeoutLeavesNoFileWithCleanup` |
| api/server.py:36 | `httpx.AsyncClient()` keeps its default five-second timeout, the same as the child's `timeout=5` (executor/executor.py:33); the executor answers a timed-out run only after that limit | a prompt whose synthesised program runs past the 5-second limit (a very long prompt, or a slow executor host): the stream is [code, "Error contacting executor: …"], without "Execution timed out" or "Completed" | the client waits longer than the executor's limit, so the "Execution timed out" record the executor builds for its caller (executor/executor.py:53-54) is shown, followed by "Completed" | medium; not executed | `Pipeline.TimeoutLostToClient` | `Pipeline.TimeoutStream` |

Both handlers return the same record (`Executor.Execute`), so the server-side and cross-file lemmas hold for either. The cross-file lemmas other than `Pipeline.TimeoutLostToClient` take the executor's answer as delivered (`Pipeline.ReplyFor`, or `Pipeline.Call` within the client's timeout).
