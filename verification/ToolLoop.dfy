/** The tool-calling loop of a child agent (src/mycoagent/node/executor.py,
    ChildAgentExecutor.run). The language model and the tools are arbitrary functions
    of what they are shown; a model that answers `None` raises. */
module ToolLoop {
  import opened Models
  import W = Workspace

  const SYSTEM_PROMPT := "You are a child agent."

  datatype Call = Call(id: string, name: string, arguments: string)

  datatype Message =
    | System(text: string)
    | User(text: string)
    | Assistant(content: Option<string>, calls: seq<Call>)
    | Tool(callId: string, output: string)

  datatype Response = Response(content: Option<string>, calls: seq<Call>) {
    function Text(): string {
      match content
      case Some(t) => t
      case None => ""
    }

    /** Neither calls tools nor says anything: the loop goes round again. */
    predicate Silent() { calls == [] && Text() == "" }
  }

  /** The step number tells apart two chats over the same messages. */
  type Model = (nat, seq<Message>) -> Option<Response>

  type Toolbox = (seq<Message>, Call) -> string

  datatype Root = Root(path: string, resolved: string)

  datatype Finished = Finished(work: ChildWork, status: SubtaskStatus, result: string)

  datatype LoopError = NoWorkspace | ChatFailed | ExceededMaxSteps

  function Prompts(work: ChildWork, payload: string): seq<Message> {
    [System(SYSTEM_PROMPT),
     User("Job " + work.job + " subtask " + work.sub + "\nDescription: " + work.description +
          "\nPayload JSON: " + payload)]
  }

  // ----- the message log as a function of the model's behaviour

  /** The log with one reply for each of the first `n` calls. */
  function Replies(tool: Toolbox, log: seq<Message>, calls: seq<Call>, n: nat): seq<Message>
    requires n <= |calls|
  {
    if n == 0 then log
    else
      var before := Replies(tool, log, calls, n - 1);
      before + [Tool(calls[n - 1].id, tool(before, calls[n - 1]))]
  }

  function Extend(tool: Toolbox, log: seq<Message>, response: Response): seq<Message> {
    if response.calls == [] then log
    else Replies(tool, log + [Assistant(response.content, response.calls)], response.calls, |response.calls|)
  }

  /** The log after `k` chats. */
  function LogAfter(start: seq<Message>, chat: Model, tool: Toolbox, k: nat): seq<Message> {
    if k == 0 then start
    else
      var before := LogAfter(start, chat, tool, k - 1);
      match chat(k - 1, before)
      case None => before
      case Some(response) => Extend(tool, before, response)
  }

  /** The answer to the chat of step `k`. */
  function Answer(start: seq<Message>, chat: Model, tool: Toolbox, k: nat): Option<Response> {
    chat(k, LogAfter(start, chat, tool, k))
  }

  /** Step `k` leads to another one. */
  predicate GoesOn(start: seq<Message>, chat: Model, tool: Toolbox, k: nat) {
    var answer := Answer(start, chat, tool, k);
    answer.Some? && (answer.value.calls != [] || answer.value.Silent())
  }

  // ----- what the log looks like

  /** One assistant message, and a reply for each of its calls in the same order. */
  predicate Block(ms: seq<Message>) {
    && ms != [] && ms[0].Assistant? && ms[0].calls != [] && |ms| == 1 + |ms[0].calls|
    && forall i :: 1 <= i < |ms| ==> ms[i].Tool? && ms[i].callId == ms[0].calls[i - 1].id
  }

  predicate Bracketed(ms: seq<Message>) {
    || ms == []
    || (&& ms[0].Assistant? && 1 + |ms[0].calls| <= |ms|
        && Block(ms[..1 + |ms[0].calls|]) && Bracketed(ms[1 + |ms[0].calls|..]))
  }

  lemma {:induction false} BracketedAppend(ms: seq<Message>, block: seq<Message>)
    requires Bracketed(ms) && Block(block)
    ensures Bracketed(ms + block)
    decreases |ms|
  {
    if ms == [] {
      assert ms + block == block && block[..|block|] == block && Bracketed(block[|block|..]);
    } else {
      var n := 1 + |ms[0].calls|;
      BracketedAppend(ms[n..], block);
      assert (ms + block)[..n] == ms[..n] && (ms + block)[n..] == ms[n..] + block;
    }
  }

  /** The block says what happened: the model's content and calls, and what the tool
      returned for each call on the messages before it. */
  predicate Records(block: seq<Message>, log: seq<Message>, response: Response, tool: Toolbox) {
    && |block| == 1 + |response.calls| && block[0] == Assistant(response.content, response.calls)
    && forall i :: 0 <= i < |response.calls| ==>
         block[i + 1] == Tool(response.calls[i].id, tool(log + block[..i + 1], response.calls[i]))
  }

  lemma {:induction false} RepliesAnswerCalls(tool: Toolbox, log: seq<Message>, calls: seq<Call>, n: nat)
    requires n <= |calls|
    ensures var out := Replies(tool, log, calls, n);
            && |out| == |log| + n && log <= out
            && forall i :: 0 <= i < n ==>
                 out[|log| + i] == Tool(calls[i].id, tool(out[..|log| + i], calls[i]))
  {
    if n > 0 {
      RepliesAnswerCalls(tool, log, calls, n - 1);
      var before, out := Replies(tool, log, calls, n - 1), Replies(tool, log, calls, n);
      forall i | 0 <= i < n ensures out[|log| + i] == Tool(calls[i].id, tool(out[..|log| + i], calls[i])) {
        assert out[..|log| + i] == before[..|log| + i];
      }
    }
  }

  lemma ExtendIsBlock(tool: Toolbox, log: seq<Message>, response: Response)
    requires response.calls != []
    ensures var out := Extend(tool, log, response);
            log <= out && Block(out[|log|..]) && Records(out[|log|..], log, response, tool)
  {
    hide Replies;
    var asked := log + [Assistant(response.content, response.calls)];
    var out := Extend(tool, log, response);
    RepliesAnswerCalls(tool, asked, response.calls, |response.calls|);
    assert asked <= out && asked[|log|] == out[|log|];
    forall i | 0 <= i < |response.calls|
      ensures out[|log|..][i + 1]
           == Tool(response.calls[i].id, tool(log + out[|log|..][..i + 1], response.calls[i]))
    {
      assert out[|log|..][i + 1] == out[|asked| + i];
      assert log + out[|log|..][..i + 1] == out[..|asked| + i];
    }
    RecordsIsBlock(out[|log|..], log, response, tool);
  }

  lemma RecordsIsBlock(block: seq<Message>, log: seq<Message>, response: Response, tool: Toolbox)
    requires Records(block, log, response, tool) && response.calls != []
    ensures Block(block)
  {
    forall i | 1 <= i < |block| ensures block[i].Tool? && block[i].callId == block[0].calls[i - 1].id {
      assert block[i - 1 + 1] == Tool(response.calls[i - 1].id, tool(log + block[..i], response.calls[i - 1]));
    }
  }

  /** What each step adds to the log: nothing, or one block that says what happened. */
  lemma EachStepIsRecorded(start: seq<Message>, chat: Model, tool: Toolbox, k: nat)
    ensures var before, after := LogAfter(start, chat, tool, k), LogAfter(start, chat, tool, k + 1);
            var answer := chat(k, before);
            if answer.Some? && answer.value.calls != []
            then before <= after && Records(after[|before|..], before, answer.value, tool)
            else after == before
  {
    hide Extend;
    LogGrows(start, chat, tool, k);
    var before := LogAfter(start, chat, tool, k);
    var answer := chat(k, before);
    NoCallsNoChange(tool, before, answer);
    if answer.Some? && answer.value.calls != [] { ExtendIsBlock(tool, before, answer.value); }
  }

  /** For every model and every tool, whatever is sent to the model is the prompts
      followed by whole blocks. */
  lemma {:induction false} LogIsBracketed(start: seq<Message>, chat: Model, tool: Toolbox, k: nat)
    ensures var log := LogAfter(start, chat, tool, k);
            start <= log && Bracketed(log[|start|..])
  {
    if k == 0 {
      assert start[|start|..] == [];
    } else {
      hide Bracketed, Block, Extend;
      LogIsBracketed(start, chat, tool, k - 1);
      var before, log := LogAfter(start, chat, tool, k - 1), LogAfter(start, chat, tool, k);
      var answer := chat(k - 1, before);
      if answer.Some? && answer.value.calls != [] {
        ExtendIsBlock(tool, before, answer.value);
        BracketedAppend(before[|start|..], log[|before|..]);
        assert log[|start|..] == before[|start|..] + log[|before|..];
      } else {
        assert log == before by { NoCallsNoChange(tool, before, answer); }
      }
    }
  }

  lemma NoCallsNoChange(tool: Toolbox, log: seq<Message>, answer: Option<Response>)
    ensures answer.Some? && answer.value.calls == [] ==> Extend(tool, log, answer.value) == log
  {}

  // ----- the loop

  predicate Exhausted(start: seq<Message>, chat: Model, tool: Toolbox, maxSteps: int) {
    forall k :: 0 <= k < maxSteps ==> GoesOn(start, chat, tool, k)
  }

  /** Runs one assignment. It makes at most `maxSteps` chats, each over the bracketed
      log, and stops at the first step that does not go on: a failed chat raises, and
      an answer without calls ends in COMPLETED with that text stripped of paths. */
  method Run(work: ChildWork, payload: string, workspace: Option<Root>, chat: Model, tool: Toolbox, maxSteps: int)
    returns (r: Result<Finished, LoopError>, messages: seq<Message>, chats: nat)
    ensures r == Err(NoWorkspace) <==> workspace == None
    ensures workspace == None ==> chats == 0
    ensures workspace.Some? ==>
              var start := Prompts(work, payload);
              && messages == LogAfter(start, chat, tool, chats)
              && start <= messages && Bracketed(messages[|start|..])
              && |start| == 2 && start[0] == System(SYSTEM_PROMPT)
              && start[1] == User("Job " + work.job + " subtask " + work.sub + "\nDescription: " + work.description
                                  + "\nPayload JSON: " + payload)
              && chats <= (if maxSteps < 0 then 0 else maxSteps)
              && (forall k :: 0 <= k < chats - 1 ==> GoesOn(start, chat, tool, k))
              && (r == Err(ExceededMaxSteps) <==> Exhausted(start, chat, tool, maxSteps))
              && (r == Err(ChatFailed) ==> chats > 0 && Answer(start, chat, tool, chats - 1) == None)
    ensures r.Ok? ==>
              && workspace.Some? && chats > 0
              && r.value.work == work && r.value.status == Completed && r.value.result != ""
              && var answer := Answer(Prompts(work, payload), chat, tool, chats - 1);
              && answer.Some? && answer.value.calls == []
              && W.Stripped(answer.value.Text(), workspace.value.path, workspace.value.resolved, r.value.result)
  {
    hide LogAfter, Bracketed, Exhausted, W.Stripped;
    if workspace == None { return Err(NoWorkspace), [], 0; }
    var root := workspace.value;
    ghost var start := Prompts(work, payload);
    messages := Prompts(work, payload);
    chats := 0;
    LogStarts(start, chat, tool);
    while chats < maxSteps
      invariant messages == LogAfter(start, chat, tool, chats)
      invariant chats <= (if maxSteps < 0 then 0 else maxSteps)
      invariant forall k :: 0 <= k < chats ==> GoesOn(start, chat, tool, k)
    {
      var answer := chat(chats, messages);
      LogGrows(start, chat, tool, chats);
      chats := chats + 1;
      if answer == None {
        Stopped(start, chat, tool, chats, maxSteps);
        return Err(ChatFailed), messages, chats;
      }
      var response := answer.value;
      if response.calls != [] {
        ghost var asked := messages + [Assistant(response.content, response.calls)];
        messages := messages + [Assistant(response.content, response.calls)];
        for i := 0 to |response.calls|
          invariant messages == Replies(tool, asked, response.calls, i)
        {
          var output := tool(messages, response.calls[i]);
          messages := messages + [Tool(response.calls[i].id, output)];
        }
        continue;
      }
      var text := W.StripLocalPaths(response.Text(), root.path, root.resolved);
      EmptyOnlyIfSilent(response, root, text);
      if text != "" {
        Stopped(start, chat, tool, chats, maxSteps);
        return Ok(Finished(work, Completed, text)), messages, chats;
      }
    }
    RanOut(start, chat, tool, chats, maxSteps);
    return Err(ExceededMaxSteps), messages, chats;
  }

  lemma LogStarts(start: seq<Message>, chat: Model, tool: Toolbox)
    ensures LogAfter(start, chat, tool, 0) == start
  {}

  lemma LogGrows(start: seq<Message>, chat: Model, tool: Toolbox, k: nat)
    ensures LogAfter(start, chat, tool, k + 1) ==
            match Answer(start, chat, tool, k)
            case None => LogAfter(start, chat, tool, k)
            case Some(response) => Extend(tool, LogAfter(start, chat, tool, k), response)
  {}

  lemma Stopped(start: seq<Message>, chat: Model, tool: Toolbox, chats: nat, maxSteps: int)
    requires 0 < chats <= maxSteps && !GoesOn(start, chat, tool, chats - 1)
    ensures !Exhausted(start, chat, tool, maxSteps)
    ensures var log := LogAfter(start, chat, tool, chats); start <= log && Bracketed(log[|start|..])
  {
    LogIsBracketed(start, chat, tool, chats);
  }

  lemma RanOut(start: seq<Message>, chat: Model, tool: Toolbox, chats: nat, maxSteps: int)
    requires chats >= maxSteps && forall k :: 0 <= k < chats ==> GoesOn(start, chat, tool, k)
    ensures Exhausted(start, chat, tool, maxSteps)
    ensures var log := LogAfter(start, chat, tool, chats); start <= log && Bracketed(log[|start|..])
  {
    LogIsBracketed(start, chat, tool, chats);
  }

  /** Stripping leaves a text empty only if it was. */
  lemma EmptyOnlyIfSilent(response: Response, root: Root, text: string)
    requires W.Stripped(response.Text(), root.path, root.resolved, text)
    ensures text == "" <==> response.Text() == ""
  {
    var order :| W.LongestFirst(order, W.Variants(root.path, root.resolved))
             && text == W.StripAll(response.Text(), order);
    W.StripAllEmptyIff(response.Text(), order);
  }
}
