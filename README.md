# Chat server query pipeline, modelled in Dafny

This project models the core of a small chat server that proxies prompts to a
local Ollama inference backend. The server keeps a single conversation: an
in-memory list of `{role, content}` turns. It has three handlers:

- **query**: appends the user's prompt as a `"user"` turn and flattens the whole
  history into one prompt of `role: content` lines. It then streams the
  backend's reply back fragment by fragment while accumulating it. When the
  stream ends, it records the full reply as an `"ollama"` turn and saves the
  history.
- **reset**: empties the history and saves it.
- **history**: returns the history.

The model has two modules:

- `Text` (`text.dfy`): Python's `"\n".join` and `split("\n")` on strings, with
  both round trips proved.
- `Server` (`server.dfy`): the turn records and the prompt builder. It also has
  the backend's stream as a sequence of decoded lines, and specification
  functions for what the response generator reads, yields and accumulates. The
  generator itself is a `while` loop proved against those functions. The
  `ChatServer` class holds the `history` list and the `saved` copy, the last
  history written to `chat_history.json`.

The backend call is a foreign call, so the query takes its outcome as an
argument, `reply: Option<seq<Line>>`. `None` means the call raised, for
example because the connection was refused. `Some(lines)` is the stream, with
each line already decoded into one of three forms:

- `Blank`: an empty line;
- `Garbled`: any line whose reading raises before its fragment is taken. This
  covers a UTF-8 decode error (server.py:69) and text that `json.loads` rejects
  (server.py:71). It also covers valid JSON that is not an object, where
  `part_json["response"]` raises `TypeError` (server.py:72), and a transport
  error raised by `iter_lines` (server.py:67);
- `Chunk(response, done)`: an object whose `"response"` and `"done"` keys may
  each be absent.

A chunk without `"response"` raises `KeyError` in the source, so the model
treats it as a decoding failure. A non-success HTTP status does not raise in
`requests`. The backend's error body has no `"response"` key, so that case also
ends as a decoding failure.

The reply turn's role is the literal `"ollama"`. There is one conversation,
with no chat identifiers.

## Model

| member | source | states |
|---|---|---|
| Text.JoinSnoc | server.py:58 | joining one more line adds a single line break and that line at the end of the prompt |
| Text.Split | server.py:58 | splitting a prompt gives at least one piece, and no piece holds a line break |
| Text.SplitJoin | server.py:58 | splitting the joined lines at line breaks gives back exactly those lines, when none of them holds a line break |
| Text.JoinSplit | server.py:58 | joining the pieces of any string with line breaks gives back that string |
| Server.PromptEndsWithUserLine | server.py:55-58 | the prompt of a query is the earlier history's prompt, a line break if there was an earlier turn, then `"user: <prompt>"` as the last line |
| Server.PromptLines | server.py:58 | if no role or content holds a line break, the prompt has exactly one line per turn, and line i renders turn i |
| Server.FirstHalt | server.py:66-75 | the index at which the generator leaves its loop is at most the stream length, which it reaches when the stream runs out |
| Server.FirstHaltSpec | server.py:67-75 | no line before that index fails to decode or finishes with `done`, and the line at that index (if any) does one or the other |
| Server.FirstHaltIs | server.py:67-75 | that index is the only one with both properties |
| Server.TextsAppend | server.py:67-73 | the fragments of two consecutive runs of lines are the first run's fragments followed by the second's |
| Server.ConcatAppend | server.py:72 | accumulating two lists of fragments in turn gives the concatenation of the two accumulations |
| Server.AccumulatesInTwoRuns | server.py:66-75 | a stream whose first run of lines neither finishes nor fails accumulates that run's fragments followed by exactly what the rest alone accumulates, and completes exactly when the rest does |
| Server.FirstHaltPadded | server.py:67-68 | a blank line inserted before the halting line moves that line one place on; inserted after it, it moves nothing |
| Server.BlankLinesIgnored | server.py:67-68 | a blank line inserted anywhere in the stream changes neither the fragments yielded nor whether the query completes |
| Server.NothingReadAfterHalt | server.py:74-75 | once a line finishes or fails, lines after it are never read, and appending any lines to the stream changes nothing that is yielded, read or recorded |
| Server.FinishingFragmentIsLast | server.py:72-75 | the fragment of the chunk whose `done` is true is yielded, as the last fragment, before the loop stops |
| Server.FailureStopsWithoutCommit | server.py:69-77 | a line that fails to decode yields nothing, the fragments before it have already been yielded, and the commit step is not reached |
| Server.ResponseGenerator | server.py:65-75 | the loop reads exactly up to and including the first halting line, and yields the fragments of the chunks read, in order. The accumulated `full_response` is always their concatenation. It completes exactly when the stream ends or finishes with no decoding error |
| Server.AnsweredQueryAddsTwoTurns | server.py:55-79 | a completed query grows the history by exactly a `"user"` turn with the prompt and an `"ollama"` turn with the accumulated reply, leaving earlier turns unchanged |
| Server.FailedQueryLeavesUserTurn | server.py:53-85 | if the backend call raises or a line fails to decode, the history grows by the `"user"` turn alone |
| Server.QueryPairing | server.py:55-79 | a history of (user, ollama) pairs stays paired after a query exactly when the query completes |
| Server.RetryDuplicatesUserTurn | server.py:55-85 | retrying after a failed query leaves two consecutive `"user"` turns with no reply between them |
| Server.HelloExample | server.py:55-79 | chunks `"hel"` and then `"lo"` with `done` stream `["hel", "lo"]`, accumulate `"hello"`, and record `[user "hi", ollama "hello"]` |
| Server.AsWrittenLosesEveryReply | server.py:60-63 | as written, a backend answer that the intended pipeline records as an `"ollama"` turn is lost, and only the user turn remains |
| Server.ChatServer.constructor | backend/chat_history.py:4 | the server starts with an empty in-memory history, and whatever the history file holds |
| Server.ChatServer.Save | backend/chat_history.py:6-11 | the saved history becomes the whole current history |
| Server.ChatServer.GetHistory | server.py:26-33 | returns the current history and changes nothing |
| Server.ChatServer.Reset | server.py:35-44 | the history becomes empty and the empty history is saved |
| Server.ChatServer.Query | server.py:46-85 | returns the prompt sent to the backend, built from the history after the user turn. The new history is the old one plus the user turn, plus the `"ollama"` reply turn exactly when the query completes. The history is saved exactly when a reply is recorded. The client receives HTTP 500 if the call raised, otherwise the yielded fragments |

## Left out

- HTTP plumbing is not modelled: FastAPI routing, serving the HTML page, and `StreamingResponse` framing. The HTTP 500 mapping appears only as the `Failed` result. Shutdown via `SIGTERM` and the uvicorn start-up are not modelled either.
- Logging is not modelled. It has no effect on state.
- The HTTP request to the backend and the byte/JSON decoding of its lines are foreign calls. They are replaced by the already-decoded `reply` argument.
- A `"response"` value that is not a string, and a `"done"` value that is not a boolean (Python would apply truthiness), are not representable in `Line`.
- Server.ChatServer.Query: runs the response generator to its end within the call. In the source the generator runs lazily after the handler returns, so a client that disconnects early stops it before the commit step. The model does not capture that interleaving.
- backend/ollama.py is not modelled: the liveness probe, the `Popen` start with its five one-second polls, and the `os.system` fallback are process and network I/O.
- backend/chat_history.py's JSON file I/O is reduced to the `saved` field. Loading the file at start-up is not modelled. The constructor takes the file's contents and starts with an empty in-memory history.
- The source binds the history list under two module names. server.py imports `chat_history` from backend/chat_history.py, and `save_chat_history` always writes backend/chat_history.py's list (backend/chat_history.py:6-11). `reset_chat_history` rebinds only server.py's name (server.py:40-41). Its own save (server.py:42) therefore writes the pre-reset list, so as written a reset never clears `chat_history.json`. Later queries append to the new list while every save keeps writing the old one, so none of them is saved either.
- `load_chat_history` rebinds only the backend's name (backend/chat_history.py:17-20). When the file exists at start-up, server.py keeps appending to its own empty list, and every later save rewrites the loaded contents unchanged, so no query is ever saved.
- The model keeps one history field, and `Save` writes that field.
- Concurrent handlers running on the same history are not modelled. The literal model name `"deepseek-r1:latest"` is not modelled.

## Findings

| source | as written | input that shows it | evidently intended | confidence | as-written member | corrected member |
|---|---|---|---|---|---|---|
| server.py:60 | `requests` and `OLLAMA_SERVER_URL` are used but never imported. Every query raises `NameError` after the user turn is appended, and the handler answers HTTP 500 | prompt `"hi"` with a backend that answers one chunk `"hello"` with `done` true | post the prompt to the backend's `/api/generate`, stream the reply, and record it as an `"ollama"` turn | high; not executed | Server.AsWrittenLosesEveryReply | Server.ChatServer.Query |
