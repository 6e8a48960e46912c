/** The single-conversation query pipeline of the chat server: one in-memory
    turn history, the prompt built from it, the streamed reply of the
    inference backend, and the query, reset and history handlers. */
module Server {
  import opened Text

  datatype Option<+T> = None | Some(value: T)

  /** One entry of the chat history, a `{role, content}` record. */
  datatype Turn = Turn(role: string, content: string)

  const UserRole: string := "user"
  const OllamaRole: string := "ollama"

  function UserTurn(prompt: string): Turn { Turn(UserRole, prompt) }
  function OllamaTurn(reply: string): Turn { Turn(OllamaRole, reply) }

  // ---------------------------------------------------------------------------
  // The prompt sent to the backend
  // ---------------------------------------------------------------------------

  /** One line of the prompt: `"<role>: <content>"`. */
  function Render(t: Turn): string {
    t.role + ": " + t.content
  }

  /** The rendered turns, in history order. */
  function RenderAll(history: seq<Turn>): seq<string>
  {
    seq(|history|, i requires 0 <= i < |history| => Render(history[i]))
  }

  /** The whole conversation flattened into one prompt string. */
  function Prompt(history: seq<Turn>): string {
    Join(RenderAll(history))
  }

  /** The prompt of a query is the prompt of the earlier history, a line
      break when there was one, then `"user: <prompt>"` as its last line. */
  lemma PromptEndsWithUserLine(history: seq<Turn>, prompt: string)
    ensures Prompt(history + [UserTurn(prompt)]) ==
            (if history == [] then "" else Prompt(history) + [Newline]) + "user: " + prompt
  {
    var lines := RenderAll(history);
    assert Render(UserTurn(prompt)) == "user: " + prompt;
    assert RenderAll(history + [UserTurn(prompt)]) == lines + ["user: " + prompt];
    JoinSnoc(lines, "user: " + prompt);
  }

  /** Where no role and no content holds a line break, the prompt has exactly
      one line per turn, and line `i` is `"<role>: <content>"` of turn `i`. */
  lemma PromptLines(history: seq<Turn>)
    requires |history| >= 1
    requires forall i :: 0 <= i < |history| ==>
               SingleLine(history[i].role) && SingleLine(history[i].content)
    ensures Split(Prompt(history)) == RenderAll(history)
  {
    var lines := RenderAll(history);
    forall i | 0 <= i < |lines| ensures SingleLine(lines[i]) {
      assert lines[i] == history[i].role + ": " + history[i].content;
    }
    SplitJoin(lines);
  }

  // ---------------------------------------------------------------------------
  // The backend's stream
  // ---------------------------------------------------------------------------

  /** One line of the backend's newline-delimited JSON stream, as decoded:
      an empty line; a line whose reading raises before its fragment is taken
      (a transport or UTF-8 error, text that is not JSON, JSON that is not an
      object); or a JSON object whose "response" and "done" keys may each be
      absent. */
  datatype Line =
    | Blank
    | Garbled
    | Chunk(response: Option<string>, done: Option<bool>)

  /** Reading this line raises: it is garbled, or has no "response" key. */
  predicate Fails(l: Line) {
    l.Garbled? || (l.Chunk? && l.response.None?)
  }

  /** This line is a chunk whose fragment is emitted and whose "done" flag
      is true; an absent flag counts as false. */
  predicate Finishes(l: Line) {
    l.Chunk? && l.response.Some? && l.done == Some(true)
  }

  /** The generator leaves its loop at this line. */
  predicate Halts(l: Line) {
    Fails(l) || Finishes(l)
  }

  /** The fragments a line emits: its "response" text, if it has one. */
  function Emitted(l: Line): seq<string> {
    if l.Chunk? && l.response.Some? then [l.response.value] else []
  }

  /** The fragments a run of lines emits, in order. */
  function Texts(lines: seq<Line>): seq<string> {
    if lines == [] then [] else Texts(lines[..|lines| - 1]) + Emitted(lines[|lines| - 1])
  }

  /** The fragments glued together. */
  function Concat(fragments: seq<string>): string {
    if fragments == [] then "" else Concat(fragments[..|fragments| - 1]) + fragments[|fragments| - 1]
  }

  /** The index of the first line at which the generator stops early, or the
      stream's length when there is none. */
  function FirstHalt(lines: seq<Line>): (k: nat)
    ensures k <= |lines|
  {
    if lines == [] then 0
    else if Halts(lines[0]) then 0
    else 1 + FirstHalt(lines[1..])
  }

  /** No line before `FirstHalt` halts the loop, and the line at it does. */
  lemma {:induction false} FirstHaltSpec(lines: seq<Line>)
    ensures forall j :: 0 <= j < FirstHalt(lines) ==> !Halts(lines[j])
    ensures FirstHalt(lines) < |lines| ==> Halts(lines[FirstHalt(lines)])
  {
    if lines != [] && !Halts(lines[0]) {
      FirstHaltSpec(lines[1..]);
      forall j | 1 <= j < FirstHalt(lines) ensures !Halts(lines[j]) {
        assert lines[j] == lines[1..][j - 1];
      }
    }
  }

  /** The number of lines the generator reads from the stream. */
  function Consumed(lines: seq<Line>): nat {
    if FirstHalt(lines) < |lines| then FirstHalt(lines) + 1 else |lines|
  }

  /** The generator reaches its commit step: at the first finished chunk,
      or at the end of the stream, with no decoding error before. */
  predicate Completes(lines: seq<Line>) {
    FirstHalt(lines) == |lines| || Finishes(lines[FirstHalt(lines)])
  }

  /** The fragments the generator yields. */
  function Yielded(lines: seq<Line>): seq<string> {
    Texts(lines[..Consumed(lines)])
  }

  /** The reply the generator accumulates. */
  function FullResponse(lines: seq<Line>): string {
    Concat(Yielded(lines))
  }

  /** `FirstHalt` is the unique index with its two defining properties. */
  lemma FirstHaltIs(lines: seq<Line>, k: nat)
    requires k <= |lines|
    requires forall j :: 0 <= j < k ==> !Halts(lines[j])
    requires k < |lines| ==> Halts(lines[k])
    ensures FirstHalt(lines) == k
  {
    FirstHaltSpec(lines);
  }

  lemma {:induction false} TextsAppend(a: seq<Line>, b: seq<Line>)
    ensures Texts(a + b) == Texts(a) + Texts(b)
  {
    if b != [] {
      var b' := b[..|b| - 1];
      assert (a + b)[..|a + b| - 1] == a + b';
      TextsAppend(a, b');
    } else {
      assert a + b == a;
    }
  }

  lemma {:induction false} ConcatAppend(a: seq<string>, b: seq<string>)
    ensures Concat(a + b) == Concat(a) + Concat(b)
  {
    if b != [] {
      var b' := b[..|b| - 1];
      assert (a + b)[..|a + b| - 1] == a + b';
      ConcatAppend(a, b');
    } else {
      assert a + b == a;
    }
  }

  /** A stream read in two runs, the first of which neither finishes nor
      fails, accumulates the first run's fragments and then exactly what the
      second run alone would accumulate; it completes as the second run does. */
  lemma {:induction false} AccumulatesInTwoRuns(a: seq<Line>, b: seq<Line>)
    requires forall j :: 0 <= j < |a| ==> !Halts(a[j])
    ensures Completes(a + b) == Completes(b)
    ensures FullResponse(a + b) == Concat(Texts(a)) + FullResponse(b)
  {
    var lines, h := a + b, FirstHalt(b);
    FirstHaltSpec(b);
    forall j | 0 <= j < |a| + h ensures !Halts(lines[j]) {
      if j >= |a| {
        assert lines[j] == b[j - |a|];
      }
    }
    if h < |b| {
      assert lines[|a| + h] == b[h];
    }
    FirstHaltIs(lines, |a| + h);
    assert lines[..Consumed(lines)] == a + b[..Consumed(b)];
    TextsAppend(a, b[..Consumed(b)]);
    ConcatAppend(Texts(a), Yielded(b));
  }

  /** A blank line inserted between `a` and `b` moves the first halting line
      one place on when it sat in `b`, and moves nothing when it sat in `a`. */
  lemma {:induction false} FirstHaltPadded(a: seq<Line>, b: seq<Line>)
    ensures var h := FirstHalt(a + b);
            FirstHalt(a + [Blank] + b) == if |a| <= h then h + 1 else h
  {
    if a == [] {
      assert a + [Blank] + b == [Blank] + b && ([Blank] + b)[1..] == b;
      assert a + b == b;
    } else {
      var padded := a + [Blank] + b;
      assert padded[0] == (a + b)[0] == a[0];
      if !Halts(a[0]) {
        assert padded[1..] == a[1..] + [Blank] + b;
        assert (a + b)[1..] == a[1..] + b;
        FirstHaltPadded(a[1..], b);
      }
    }
  }

  /** A blank line among the lines read contributes no fragment. */
  lemma {:induction false} TextsSkipBlank(a: seq<Line>, b: seq<Line>)
    ensures Texts(a + [Blank] + b) == Texts(a + b)
  {
    assert [Blank][..0] == [];
    assert Texts([Blank]) == [];
    TextsAppend(a, [Blank]);
    assert Texts(a + [Blank]) == Texts(a);
    TextsAppend(a + [Blank], b);
    TextsAppend(a, b);
  }

  /** A blank line inserted anywhere in the stream is read one place after
      the lines before it, and changes nothing about where the loop stops. */
  lemma {:induction false} ConsumedPadded(a: seq<Line>, b: seq<Line>)
    ensures var h, c := FirstHalt(a + b), Consumed(a + b);
            Consumed(a + [Blank] + b) == (if |a| <= h then c + 1 else c) &&
            (Completes(a + [Blank] + b) <==> Completes(a + b))
  {
    var lines, padded := a + b, a + [Blank] + b;
    var h := FirstHalt(lines);
    FirstHaltPadded(a, b);
    if |a| <= h {
      if h < |lines| {
        assert padded[h + 1] == lines[h];
      }
    } else {
      assert padded[h] == lines[h];
    }
  }

  /** Blank lines emit nothing and leave the accumulated reply unchanged:
      inserting one anywhere in the stream changes neither whether the
      query completes nor what it yields. */
  lemma {:induction false} BlankLinesIgnored(a: seq<Line>, b: seq<Line>)
    ensures Completes(a + [Blank] + b) == Completes(a + b)
    ensures Yielded(a + [Blank] + b) == Yielded(a + b)
  {
    var lines, padded := a + b, a + [Blank] + b;
    var h, c := FirstHalt(lines), Consumed(lines);
    ConsumedPadded(a, b);
    if |a| <= h {
      var tail := lines[|a|..c];
      assert padded[..c + 1] == a + [Blank] + tail;
      assert lines[..c] == a + tail;
      TextsSkipBlank(a, tail);
    } else {
      assert padded[..c] == lines[..c];
    }
  }

  /** Streaming stops at the first finished chunk (or decoding error): lines
      after it are never read and cannot change the outcome. */
  lemma {:induction false} NothingReadAfterHalt(lines: seq<Line>, rest: seq<Line>)
    requires FirstHalt(lines) < |lines|
    ensures Consumed(lines + rest) == Consumed(lines) <= |lines|
    ensures Completes(lines + rest) == Completes(lines)
    ensures Yielded(lines + rest) == Yielded(lines)
  {
    var h := FirstHalt(lines);
    var all := lines + rest;
    FirstHaltSpec(lines);
    forall j | 0 <= j < h ensures !Halts(all[j]) {
      assert all[j] == lines[j];
    }
    assert all[h] == lines[h];
    FirstHaltIs(all, h);
    assert all[..h + 1] == lines[..h + 1];
  }

  /** The fragment of the finishing chunk is yielded, as the last one,
      before the generator stops. */
  lemma FinishingFragmentIsLast(lines: seq<Line>)
    requires FirstHalt(lines) < |lines| && Finishes(lines[FirstHalt(lines)])
    ensures |Yielded(lines)| >= 1
    ensures Yielded(lines)[|Yielded(lines)| - 1] == lines[FirstHalt(lines)].response.value
  {
  }

  /** A decoding error yields nothing for the failing line and the query
      does not complete. */
  lemma FailureStopsWithoutCommit(lines: seq<Line>)
    requires FirstHalt(lines) < |lines| && Fails(lines[FirstHalt(lines)])
    ensures !Completes(lines)
    ensures Yielded(lines) == Texts(lines[..FirstHalt(lines)])
  {
    var h := FirstHalt(lines);
    assert lines[..h + 1][..h] == lines[..h];
  }

  // ---------------------------------------------------------------------------
  // The response generator
  // ---------------------------------------------------------------------------

  /** Reads the stream line by line: skips blank lines, yields each chunk's
      fragment and accumulates it, and stops after the first finished chunk.
      `completed` is false when a line fails to decode, in which case the
      generator raises and never reaches its commit step. */
  method ResponseGenerator(lines: seq<Line>)
    returns (yielded: seq<string>, fullResponse: string, consumed: nat, completed: bool)
    ensures consumed == Consumed(lines)
    ensures yielded == Yielded(lines)
    ensures fullResponse == Concat(yielded)
    ensures completed == Completes(lines)
  {
    yielded, fullResponse := [], "";
    var i := 0;
    FirstHaltSpec(lines);
    while i < |lines|
      invariant i <= FirstHalt(lines)
      invariant yielded == Texts(lines[..i])
      invariant fullResponse == Concat(yielded)
    {
      var line := lines[i];
      assert lines[..i + 1][..i] == lines[..i];
      i := i + 1;
      match line
      case Blank =>
      case Garbled =>
        consumed, completed := i, false;
        return;
      case Chunk(response, done) =>
        if response.None? {
          consumed, completed := i, false;
          return;
        }
        fullResponse := fullResponse + response.value;
        assert (yielded + [response.value])[..|yielded|] == yielded;
        yielded := yielded + [response.value];
        if done == Some(true) {
          break;
        }
    }
    consumed, completed := i, true;
  }

  // ---------------------------------------------------------------------------
  // The query as a whole
  // ---------------------------------------------------------------------------

  /** The history after a query: the user's turn always, then the reply as an
      `"ollama"` turn when the backend answered and the stream completed.
      `reply` is `None` when the call to the backend raised. */
  function AfterQuery(history: seq<Turn>, prompt: string, reply: Option<seq<Line>>): seq<Turn> {
    history + [UserTurn(prompt)] +
      if Answered(reply) then [OllamaTurn(FullResponse(reply.value))] else []
  }

  /** The query reaches its commit step. */
  predicate Answered(reply: Option<seq<Line>>) {
    reply.Some? && Completes(reply.value)
  }

  /** A completed query grows the history by exactly a user turn and an
      `"ollama"` turn carrying the concatenated fragments; earlier turns are
      unchanged. */
  lemma AnsweredQueryAddsTwoTurns(history: seq<Turn>, prompt: string, lines: seq<Line>)
    requires Completes(lines)
    ensures var after := AfterQuery(history, prompt, Some(lines));
            |after| == |history| + 2 && after[..|history|] == history &&
            after[|history|] == Turn("user", prompt) &&
            after[|history| + 1] == Turn("ollama", Concat(Yielded(lines)))
  {
  }

  /** A query whose backend call raises or whose stream fails to decode grows
      the history by the user turn alone. */
  lemma FailedQueryLeavesUserTurn(history: seq<Turn>, prompt: string, reply: Option<seq<Line>>)
    requires !Answered(reply)
    ensures AfterQuery(history, prompt, reply) == history + [Turn("user", prompt)]
  {
  }

  /** A history made of (user, ollama) pairs, the shape every run of completed
      queries from an empty history leaves. */
  predicate Paired(history: seq<Turn>) {
    |history| % 2 == 0 &&
    forall i :: 0 <= i < |history| ==>
      history[i].role == (if i % 2 == 0 then UserRole else OllamaRole)
  }

  /** Completed queries keep the history in (user, ollama) pairs; a failed one
      leaves a dangling user turn at the end. */
  lemma QueryPairing(history: seq<Turn>, prompt: string, reply: Option<seq<Line>>)
    requires Paired(history)
    ensures Paired(AfterQuery(history, prompt, reply)) <==> Answered(reply)
  {
    var after := AfterQuery(history, prompt, reply);
    if Answered(reply) {
      forall i | 0 <= i < |after|
        ensures after[i].role == (if i % 2 == 0 then UserRole else OllamaRole)
      {
        if i < |history| {
          assert after[i] == history[i];
        }
      }
    } else {
      assert |after| % 2 == 1;
    }
  }

  /** A retried query after a failed one leaves two consecutive user turns,
      with no reply between them. */
  lemma RetryDuplicatesUserTurn(history: seq<Turn>, p1: string, r1: Option<seq<Line>>,
                                p2: string, r2: Option<seq<Line>>)
    requires !Answered(r1)
    ensures var after := AfterQuery(AfterQuery(history, p1, r1), p2, r2);
            after[|history|] == Turn("user", p1) && after[|history| + 1] == Turn("user", p2)
  {
  }

  /** The query as `server.py` is written: `requests` and `OLLAMA_SERVER_URL`
      are never imported, so the backend call raises a NameError after the
      user turn is appended, whatever the backend would have answered. */
  function AfterQueryAsWritten(history: seq<Turn>, prompt: string, reply: Option<seq<Line>>): seq<Turn> {
    history + [UserTurn(prompt)]
  }

  /** A one-chunk answer that the intended pipeline records is lost as written. */
  lemma AsWrittenLosesEveryReply(history: seq<Turn>, prompt: string)
    ensures var reply := Some([Chunk(Some("hello"), Some(true))]);
            AfterQuery(history, prompt, reply) == history + [Turn("user", prompt), Turn("ollama", "hello")] &&
            AfterQueryAsWritten(history, prompt, reply) == history + [Turn("user", prompt)]
  {
    var lines := [Chunk(Some("hello"), Some(true))];
    assert FirstHalt(lines) == 0;
    assert Consumed(lines) == 1;
    assert lines[..1] == lines;
    assert Texts(lines) == Texts([]) + ["hello"];
    assert Yielded(lines) == ["hello"];
    assert Concat(["hello"]) == Concat([]) + "hello";
    assert FullResponse(lines) == "hello";
    assert Answered(Some(lines));
  }

  /** Two chunks, "hel" and then "lo" with done set, stream "hello" and record
      it after the user's "hi". */
  lemma HelloExample()
    ensures var lines := [Chunk(Some("hel"), None), Chunk(Some("lo"), Some(true))];
            Yielded(lines) == ["hel", "lo"] && FullResponse(lines) == "hello" &&
            AfterQuery([], "hi", Some(lines)) == [Turn("user", "hi"), Turn("ollama", "hello")]
  {
    var lines := [Chunk(Some("hel"), None), Chunk(Some("lo"), Some(true))];
    assert !Halts(lines[0]) && Halts(lines[1]);
    FirstHaltIs(lines, 1);
    assert lines[..2] == lines;
    assert lines[..1] == [lines[0]];
    assert Texts([lines[0]]) == Texts([]) + ["hel"];
    assert Texts(lines) == Texts([lines[0]]) + ["lo"];
    assert ["hel", "lo"][..1] == ["hel"];
    assert Concat(["hel"]) == Concat([]) + "hel";
    assert Concat(["hel", "lo"]) == Concat(["hel"]) + "lo";
  }

  // ---------------------------------------------------------------------------
  // The server's state and handlers
  // ---------------------------------------------------------------------------

  /** What a query hands back to the HTTP layer. */
  datatype QueryResult =
    | Failed                                               // HTTP 500
    | Streamed(fragments: seq<string>, completed: bool)    // streamed body

  class ChatServer {
    /** The in-memory `chat_history` list. */
    var history: seq<Turn>
    /** The history as last written to `chat_history.json`. */
    var saved: seq<Turn>

    constructor (stored: seq<Turn>)
      ensures history == [] && saved == stored
    {
      history, saved := [], stored;
    }

    /** `save_chat_history`: writes the whole history out. */
    method Save()
      modifies this`saved
      ensures saved == history
    {
      saved := history;
    }

    /** `get_chat_history`: returns the history without changing anything. */
    method GetHistory() returns (h: seq<Turn>)
      ensures h == history
    {
      h := history;
    }

    /** `reset_chat_history`: empties the history and saves it. */
    method Reset()
      modifies this
      ensures history == [] && saved == []
    {
      history := [];
      Save();
    }

    /** `query_model` with its response generator run to its end. `reply` is
        the backend's decoded stream, or `None` when the call raised. Returns
        the prompt sent to the backend and what the client receives. */
    method Query(prompt: string, reply: Option<seq<Line>>) returns (sent: string, result: QueryResult)
      modifies this
      ensures sent == Prompt(old(history) + [UserTurn(prompt)])
      ensures history == AfterQuery(old(history), prompt, reply)
      ensures saved == if Answered(reply) then history else old(saved)
      ensures result == if reply.None? then Failed
                        else Streamed(Yielded(reply.value), Completes(reply.value))
    {
      history := history + [UserTurn(prompt)];
      sent := Prompt(history);
      if reply.None? {
        result := Failed;
        return;
      }
      var yielded, fullResponse, consumed, completed := ResponseGenerator(reply.value);
      if completed {
        history := history + [OllamaTurn(fullResponse)];
        Save();
      }
      result := Streamed(yielded, completed);
    }
  }
}
