/** The chat session: the transcript, the prompt buffer and the orchestration
    loop that streams a reply into the transcript, runs the tool when the
    model asks for it and feeds the result back for another reply, with at
    most `MaxToolTurns` tool runs per submitted prompt.

    The first half states the loop as pure functions over values, recursive
    in the way the app's `runGenerationLoop` and `handleToolCall` call each
    other; the class `ChatViewModel` keeps the state in fields and runs the
    same loop iteratively, proved equal to those functions. */
module ChatViewModel {
  import opened Wrappers
  import opened Strings
  import opened Messages
  import opened Generation

  /** Tool runs allowed per submitted prompt. */
  const MaxToolTurns: nat := 2

  const SystemPrompt: string :=
    "You are a job search assistant for dev.bg. "
    + "When you have a category and date, call get_todays_jobs. "
    + "If details are missing, ask the user. "
    + "When calling a tool, reply only with a <tool_call> JSON block like "
    + "<tool_call>{\\\"name\\\":\\\"get_todays_jobs\\\",\\\"arguments\\\":{...}}</tool_call>. "
    + "Return results in markdown."

  const LimitMessage: string := "Tool call limit reached."

  const CancelledMarker: string := "\n[Cancelled]"

  /** The backend: given the transcript, open a generation stream. */
  type Backend = seq<Entry> -> Stream

  /** The tool: given a request, produce the result text or fail with an
      error description. */
  type ToolRunner = ToolCall -> Result<string, string>

  // ---------------------------------------------------------------------
  // One stream

  /** How many events of a stream the loop consumes: every event up to and
      including the first one that carries a tool call, or all of them. */
  function AppliedCount(events: seq<Event>): (n: nat)
    ensures n <= |events|
    ensures forall k :: 0 <= k < n - 1 ==> events[k].toolCall.None?
    ensures n < |events| ==> 0 < n && events[n - 1].toolCall.Some?
  {
    if events == [] then 0
    else if events[0].toolCall.Some? then 1
    else 1 + AppliedCount(events[1..])
  }

  /** The events the loop consumes. */
  function Applied(events: seq<Event>): seq<Event> {
    events[..AppliedCount(events)]
  }

  /** The text chunks of some events, concatenated in order. */
  function Chunks(events: seq<Event>): string {
    if events == [] then []
    else
      var last := events[|events| - 1];
      Chunks(events[..|events| - 1]) + (if last.chunk.Some? then last.chunk.value else [])
  }

  /** The completion info after some events: the last one reported, or the
      prior value if none reports any. */
  function LatestInfo(events: seq<Event>, prior: Option<CompletionInfo>): Option<CompletionInfo> {
    if events == [] then prior
    else if events[|events| - 1].info.Some? then events[|events| - 1].info
    else LatestInfo(events[..|events| - 1], prior)
  }

  /** The tool call that stops the stream, if any. */
  function DetectedCall(events: seq<Event>): Option<ToolCall> {
    var n := AppliedCount(events);
    if n > 0 then events[n - 1].toolCall else None
  }

  /** Appends text to the content of the last message, if there is one. */
  function AppendToLast(t: seq<Entry>, text: string): (r: seq<Entry>)
    ensures |r| == |t|
  {
    if t == [] then t
    else t[..|t| - 1] + [t[|t| - 1].(content := t[|t| - 1].content + text)]
  }

  /** Removes the last message when it is an assistant message with no text. */
  function DropPlaceholder(t: seq<Entry>): (r: seq<Entry>)
    ensures r == t || (t != [] && t[|t| - 1] == Entry(Assistant, []) && r == t[..|t| - 1])
  {
    if t != [] && t[|t| - 1].role == Assistant && t[|t| - 1].content == [] then t[..|t| - 1] else t
  }

  /** An empty assistant placeholder at the end IS removed, and nothing else
      ever is. */
  lemma DropPlaceholderRemovesEmpty(t: seq<Entry>)
    ensures t != [] && t[|t| - 1] == Entry(Assistant, []) ==> DropPlaceholder(t) == t[..|t| - 1]
    ensures t == [] || t[|t| - 1] != Entry(Assistant, []) ==> DropPlaceholder(t) == t
  {
  }

  /** `n` is exactly the number of events the loop consumes. */
  lemma AppliedCountUnique(events: seq<Event>, n: nat)
    requires n <= |events|
    requires forall k :: 0 <= k < n - 1 ==> events[k].toolCall.None?
    requires n == |events| || (0 < n && events[n - 1].toolCall.Some?)
    ensures AppliedCount(events) == n
  {
  }

  /** The stream stops at a tool call exactly when some event carries one,
      and the call it stops at is the first one. */
  lemma DetectedCallIsFirst(events: seq<Event>)
    ensures DetectedCall(events).None? <==> forall k :: 0 <= k < |events| ==> events[k].toolCall.None?
    ensures DetectedCall(events).Some? ==>
      exists k :: 0 <= k < |events| && events[k].toolCall == DetectedCall(events)
                  && forall j :: 0 <= j < k ==> events[j].toolCall.None?
  {
    var n := AppliedCount(events);
    if n > 0 && events[n - 1].toolCall.Some? {
      assert forall j :: 0 <= j < n - 1 ==> events[j].toolCall.None?;
    }
  }

  /** Events after the tool call are never applied: appending more events
      to a stream that requests a tool changes nothing the loop does. */
  lemma LaterEventsIgnored(events: seq<Event>, later: seq<Event>)
    requires DetectedCall(events).Some?
    ensures Applied(events + later) == Applied(events)
    ensures DetectedCall(events + later) == DetectedCall(events)
  {
    var n := AppliedCount(events);
    var all := events + later;
    assert forall k :: 0 <= k < n ==> all[k] == events[k];
    AppliedCountUnique(all, n);
  }

  /** A stream without tool calls is consumed whole: the content grows by
      every chunk in emission order. */
  lemma NoToolCallAllApplied(events: seq<Event>)
    requires forall k :: 0 <= k < |events| ==> events[k].toolCall.None?
    ensures Applied(events) == events
    ensures DetectedCall(events).None?
  {
    AppliedCountUnique(events, |events|);
  }

  /** Completion info is overwritten, not accumulated: once some event
      reports info, the value before the stream no longer matters, and the
      info kept is the one the last reporting event carries. */
  lemma {:induction false} InfoLastWriteWins(events: seq<Event>, p: Option<CompletionInfo>, q: Option<CompletionInfo>)
    requires exists k :: 0 <= k < |events| && events[k].info.Some?
    ensures LatestInfo(events, p) == LatestInfo(events, q)
    ensures exists k :: 0 <= k < |events| && events[k].info.Some? && LatestInfo(events, p) == events[k].info
                        && forall j :: k < j < |events| ==> events[j].info.None?
  {
    var last := |events| - 1;
    if events[last].info.None? {
      var k :| 0 <= k < |events| && events[k].info.Some?;
      var front := events[..last];
      assert front[k] == events[k];
      InfoLastWriteWins(front, p, q);
      var k' :| 0 <= k' < |front| && front[k'].info.Some? && LatestInfo(front, p) == front[k'].info
                && forall j :: k' < j < |front| ==> front[j].info.None?;
      assert events[k'] == front[k'];
      assert forall j :: k' < j < |events| ==> events[j].info.None? by {
        forall j | k' < j < |events| ensures events[j].info.None? {
          if j < last { assert events[j] == front[j]; }
        }
      }
    }
  }

  // ---------------------------------------------------------------------
  // The loop, as the app's two mutually recursive functions

  /** What the loop works on: the transcript, the tool-turn counter, the last
      completion info, the error and the log of tool runs. */
  datatype Session = Session(
    transcript: seq<Entry>,
    turns: nat,
    info: Option<CompletionInfo>,
    error: Option<string>,
    toolLog: seq<ToolCall>)

  /** `runGenerationLoop`: consume one stream into the last message, then
      hand a requested tool call on. A stream that cannot be opened ends the
      loop with its error. */
  function RunGenerationLoop(s: Session, backend: Backend, tool: ToolRunner): (r: Session)
    requires s.turns <= MaxToolTurns
    ensures s.turns <= r.turns <= MaxToolTurns + 1
    decreases MaxToolTurns - s.turns, 1
  {
    match backend(s.transcript)
    case OpenFailed(e) => s.(error := Some(e))
    case Opened(events) =>
      var applied := Applied(events);
      var streamed := s.(transcript := AppendToLast(s.transcript, Chunks(applied)),
                         info := LatestInfo(applied, s.info));
      match DetectedCall(events)
      case None => streamed
      case Some(call) => HandleToolCall(streamed, call, backend, tool)
  }

  /** `handleToolCall`: count the turn; past the limit append the limit
      message and stop; otherwise drop an empty placeholder, run the tool and,
      if it succeeds, append its result and a fresh placeholder and generate
      again. A failing tool ends the loop with its error. */
  function HandleToolCall(s: Session, call: ToolCall, backend: Backend, tool: ToolRunner): (r: Session)
    requires s.turns <= MaxToolTurns
    decreases MaxToolTurns - s.turns, 0
  {
    var turns := s.turns + 1;
    if turns > MaxToolTurns then
      s.(turns := turns, transcript := s.transcript + [Entry(Assistant, LimitMessage)])
    else
      var ran := s.(turns := turns, transcript := DropPlaceholder(s.transcript), toolLog := s.toolLog + [call]);
      match tool(call)
      case Failure(e) => ran.(error := Some(e))
      case Success(output) =>
        RunGenerationLoop(ran.(transcript := ran.transcript + [Entry(Tool, output), Entry(Assistant, [])]), backend, tool)
  }

  /** Below the limit, the session after the tool ran: the turn counted,
      the call logged, and either the tool's result and a new placeholder in
      place of the empty one, leading to another generation, or the tool's
      error ending the loop. */
  lemma HandleToolCallRan(s: Session, call: ToolCall, backend: Backend, tool: ToolRunner, again: bool, r: Session)
    requires s.turns < MaxToolTurns
    requires r.turns == s.turns + 1 && r.toolLog == s.toolLog + [call] && r.info == s.info
    requires again <==> tool(call).Success?
    requires again ==> r.error == s.error
                       && r.transcript == DropPlaceholder(s.transcript) + [Entry(Tool, tool(call).value), Entry(Assistant, [])]
    requires !again ==> r.error == Some(tool(call).error) && r.transcript == DropPlaceholder(s.transcript)
    ensures again ==> RunGenerationLoop(r, backend, tool) == HandleToolCall(s, call, backend, tool)
    ensures !again ==> r == HandleToolCall(s, call, backend, tool)
  {
  }

  /** At the limit, a tool call only appends the limit message. */
  lemma HandleToolCallRefused(s: Session, call: ToolCall, backend: Backend, tool: ToolRunner)
    requires s.turns == MaxToolTurns
    ensures HandleToolCall(s, call, backend, tool)
            == s.(turns := s.turns + 1, transcript := s.transcript + [Entry(Assistant, LimitMessage)])
  {
  }

  /** The turn bound: the counter only grows and ends at most one past the
      limit; the tool runs once per counted turn up to the limit and never
      beyond it; and a counter past the limit means the last message is the
      limit message and no error was recorded on the way. */
  predicate TurnBounded(s: Session, r: Session) {
    && s.turns <= r.turns <= MaxToolTurns + 1
    && |s.toolLog| <= |r.toolLog| && r.toolLog[..|s.toolLog|] == s.toolLog
    && |r.toolLog| - |s.toolLog| == (if r.turns > MaxToolTurns then MaxToolTurns else r.turns) - s.turns
    && (r.turns > MaxToolTurns ==>
          r.transcript != [] && r.transcript[|r.transcript| - 1] == Entry(Assistant, LimitMessage)
          && r.error == s.error)
  }

  lemma {:induction false} LoopTurnBound(s: Session, backend: Backend, tool: ToolRunner)
    requires s.turns <= MaxToolTurns
    ensures TurnBounded(s, RunGenerationLoop(s, backend, tool))
    decreases MaxToolTurns - s.turns, 1
  {
    match backend(s.transcript)
    case OpenFailed(e) =>
    case Opened(events) =>
      var applied := Applied(events);
      var streamed := s.(transcript := AppendToLast(s.transcript, Chunks(applied)),
                         info := LatestInfo(applied, s.info));
      match DetectedCall(events)
      case None =>
      case Some(call) => HandleTurnBound(streamed, call, backend, tool);
  }

  lemma {:induction false} HandleTurnBound(s: Session, call: ToolCall, backend: Backend, tool: ToolRunner)
    requires s.turns <= MaxToolTurns
    ensures TurnBounded(s, HandleToolCall(s, call, backend, tool))
    decreases MaxToolTurns - s.turns, 0
  {
    var turns := s.turns + 1;
    if turns <= MaxToolTurns {
      var ran := s.(turns := turns, transcript := DropPlaceholder(s.transcript), toolLog := s.toolLog + [call]);
      match tool(call)
      case Failure(e) =>
      case Success(output) =>
        var next := ran.(transcript := ran.transcript + [Entry(Tool, output), Entry(Assistant, [])]);
        LoopTurnBound(next, backend, tool);
        var r := RunGenerationLoop(next, backend, tool);
        assert r.toolLog[..|s.toolLog|] == r.toolLog[..|next.toolLog|][..|s.toolLog|];
    }
  }

  /** The loop only ever touches the last message of the transcript it
      starts from (it extends its text or drops it when it is an empty
      placeholder): every earlier message stays where it was. */
  lemma {:induction false} LoopKeepsHistory(s: Session, backend: Backend, tool: ToolRunner)
    requires s.turns <= MaxToolTurns && s.transcript != []
    ensures var r := RunGenerationLoop(s, backend, tool).transcript;
            var n := |s.transcript| - 1;
            |r| >= n && r[..n] == s.transcript[..n]
    decreases MaxToolTurns - s.turns, 1
  {
    match backend(s.transcript)
    case OpenFailed(e) =>
    case Opened(events) =>
      var applied := Applied(events);
      var streamed := s.(transcript := AppendToLast(s.transcript, Chunks(applied)),
                         info := LatestInfo(applied, s.info));
      var n := |s.transcript| - 1;
      assert streamed.transcript[..n] == s.transcript[..n];
      match DetectedCall(events)
      case None =>
      case Some(call) => HandleKeepsHistory(streamed, call, backend, tool);
  }

  lemma {:induction false} HandleKeepsHistory(s: Session, call: ToolCall, backend: Backend, tool: ToolRunner)
    requires s.turns <= MaxToolTurns && s.transcript != []
    ensures var r := HandleToolCall(s, call, backend, tool).transcript;
            var n := |s.transcript| - 1;
            |r| >= n && r[..n] == s.transcript[..n]
    decreases MaxToolTurns - s.turns, 0
  {
    var n := |s.transcript| - 1;
    var turns := s.turns + 1;
    if turns > MaxToolTurns {
      assert (s.transcript + [Entry(Assistant, LimitMessage)])[..n] == s.transcript[..n];
    } else {
      var dropped := DropPlaceholder(s.transcript);
      assert |dropped| >= n && dropped[..n] == s.transcript[..n];
      var ran := s.(turns := turns, transcript := dropped, toolLog := s.toolLog + [call]);
      match tool(call)
      case Failure(e) =>
      case Success(output) =>
        var next := ran.(transcript := dropped + [Entry(Tool, output), Entry(Assistant, [])]);
        LoopKeepsHistory(next, backend, tool);
        var r := RunGenerationLoop(next, backend, tool).transcript;
        assert r[..n] == r[..|next.transcript| - 1][..n];
        assert next.transcript[..|next.transcript| - 1][..n] == s.transcript[..n];
    }
  }

  // ---------------------------------------------------------------------
  // The session as seen by the caller

  /** The caller-visible state of a session. */
  datatype ChatState = ChatState(
    prompt: string,
    transcript: seq<Entry>,
    isGenerating: bool,
    turns: nat,
    info: Option<CompletionInfo>,
    error: Option<string>,
    toolLog: seq<ToolCall>)

  /** The session the loop starts from once `text` is submitted: the text
      as a user message and an empty assistant placeholder appended, the
      counter and the error reset. */
  function Submitted(c: ChatState, text: string): Session {
    Session(c.transcript + [Entry(User, text), Entry(Assistant, [])], 0, c.info, None, [])
  }

  /** The caller-visible state once the loop has ended: generation over and
      the prompt buffer empty. */
  function Finished(r: Session): ChatState {
    ChatState([], r.transcript, false, r.turns, r.info, r.error, r.toolLog)
  }

  /** `generate()`: a prompt that trims to nothing changes nothing; otherwise
      the prompt is submitted and the loop runs to its end. */
  function GenerateSpec(c: ChatState, backend: Backend, tool: ToolRunner): (r: ChatState)
    ensures AllWhitespace(c.prompt) ==> r == c
    ensures !AllWhitespace(c.prompt) ==> r.prompt == [] && !r.isGenerating && r.turns <= MaxToolTurns + 1
  {
    TrimEmptyIff(c.prompt);
    if Trim(c.prompt) == [] then c
    else Finished(RunGenerationLoop(Submitted(c, Trim(c.prompt)), backend, tool))
  }

  /** A prompt leaves the session untouched exactly when it is empty or
      whitespace only. */
  lemma GenerateNoopIff(c: ChatState, backend: Backend, tool: ToolRunner)
    ensures GenerateSpec(c, backend, tool) == c <==> AllWhitespace(c.prompt)
  {
    TrimEmptyIff(c.prompt);
    if Trim(c.prompt) != [] {
      LoopKeepsHistory(Submitted(c, Trim(c.prompt)), backend, tool);
      assert |GenerateSpec(c, backend, tool).transcript| > |c.transcript|;
    }
  }

  /** After a non-empty prompt the transcript starts with the old transcript
      followed by the trimmed prompt as a user message, so in particular the
      first (system) message is still in place; generation is over and the
      prompt is empty. */
  lemma GenerateKeepsHistory(c: ChatState, backend: Backend, tool: ToolRunner)
    requires !AllWhitespace(c.prompt)
    ensures var r := GenerateSpec(c, backend, tool);
            var kept := c.transcript + [Entry(User, Trim(c.prompt))];
            |r.transcript| >= |kept| && r.transcript[..|kept|] == kept
            && !r.isGenerating && r.prompt == []
  {
    TrimEmptyIff(c.prompt);
    var start := Submitted(c, Trim(c.prompt));
    LoopKeepsHistory(start, backend, tool);
    assert start.transcript[..|start.transcript| - 1] == c.transcript + [Entry(User, Trim(c.prompt))];
  }

  /** Per submitted prompt the counter restarts at 0, the tool runs at most
      `MaxToolTurns` times, and a request beyond that ends the loop with the
      limit message instead of a tool run. */
  lemma GenerateTurnBound(c: ChatState, backend: Backend, tool: ToolRunner)
    requires !AllWhitespace(c.prompt)
    ensures var r := GenerateSpec(c, backend, tool);
            && r.turns <= MaxToolTurns + 1
            && |r.toolLog| <= MaxToolTurns
            && |r.toolLog| == (if r.turns > MaxToolTurns then MaxToolTurns else r.turns)
            && (r.turns > MaxToolTurns ==>
                  r.transcript != [] && r.transcript[|r.transcript| - 1] == Entry(Assistant, LimitMessage)
                  && r.error.None?)
  {
    TrimEmptyIff(c.prompt);
    var start := Submitted(c, Trim(c.prompt));
    LoopTurnBound(start, backend, tool);
    var r := RunGenerationLoop(start, backend, tool);
    assert GenerateSpec(c, backend, tool) == Finished(r);
  }

  /** With a tool that always fails, the loop runs the tool at most once
      and then stops with the tool's error; it never appends a message, so
      the transcript does not grow. */
  lemma {:induction false} FailingToolStops(s: Session, backend: Backend, tool: ToolRunner)
    requires s.turns < MaxToolTurns
    requires forall call :: tool(call).Failure?
    ensures var r := RunGenerationLoop(s, backend, tool);
            && r.turns <= s.turns + 1
            && |r.transcript| <= |s.transcript|
            && (r.turns == s.turns ==> r.toolLog == s.toolLog)
            && (r.turns == s.turns + 1 ==>
                  |r.toolLog| == |s.toolLog| + 1 && r.toolLog[..|s.toolLog|] == s.toolLog
                  && r.error == Some(tool(r.toolLog[|s.toolLog|]).error))
  {
    match backend(s.transcript)
    case OpenFailed(e) =>
    case Opened(events) =>
      var applied := Applied(events);
      var streamed := s.(transcript := AppendToLast(s.transcript, Chunks(applied)),
                         info := LatestInfo(applied, s.info));
      match DetectedCall(events)
      case None =>
      case Some(call) =>
        var r := HandleToolCall(streamed, call, backend, tool);
        assert tool(call).Failure?;
        assert r.toolLog == s.toolLog + [call];
  }

  /** With a tool that always fails, one tool request ends the loop: the
      error is the tool's, the tool ran at most once, and nothing is appended
      after the submitted prompt and its placeholder. */
  lemma FailingToolEndsLoop(c: ChatState, backend: Backend, tool: ToolRunner)
    requires !AllWhitespace(c.prompt)
    requires forall call :: tool(call).Failure?
    ensures var r := GenerateSpec(c, backend, tool);
            && r.turns <= 1 && |r.toolLog| == r.turns
            && (r.turns == 1 ==> r.error == Some(tool(r.toolLog[0]).error))
            && |r.transcript| <= |c.transcript| + 2
  {
    TrimEmptyIff(c.prompt);
    var start := Submitted(c, Trim(c.prompt));
    FailingToolStops(start, backend, tool);
    var r := RunGenerationLoop(start, backend, tool);
    assert GenerateSpec(c, backend, tool) == Finished(r);
  }

  /** The options of `clear`. */
  datatype ClearOption = Prompt | Chat | Meta

  /** `clear(options)`: each chosen part is reset independently, and the
      error is always cleared. */
  function ClearSpec(c: ChatState, options: set<ClearOption>): (r: ChatState)
    ensures r.error.None?
    ensures r.isGenerating == c.isGenerating && r.turns == c.turns && r.toolLog == c.toolLog
  {
    c.(prompt := if Prompt in options then [] else c.prompt,
       transcript := if Chat in options then [Entry(System, SystemPrompt)] else c.transcript,
       info := if Meta in options then None else c.info,
       error := None)
  }

  /** `tokensPerSecond`: the throughput of the last completion info, 0 when
      there is none. */
  function Throughput(info: Option<CompletionInfo>): real {
    if info.Some? then info.value.tokensPerSecond else 0.0
  }

  /** Clearing with two option sets one after the other is clearing with
      their union, so the options act independently; `.meta` makes the
      reported throughput 0, and only `.chat` touches the transcript. */
  lemma ClearOptionsIndependent(c: ChatState, a: set<ClearOption>, b: set<ClearOption>)
    ensures ClearSpec(ClearSpec(c, a), b) == ClearSpec(c, a + b)
    ensures Meta in a ==> Throughput(ClearSpec(c, a).info) == 0.0
    ensures Chat !in a ==> ClearSpec(c, a).transcript == c.transcript
    ensures Prompt !in a ==> ClearSpec(c, a).prompt == c.prompt
  {
  }

  // ---------------------------------------------------------------------
  // The session object

  class ChatViewModel {
    var prompt: string
    var messages: seq<Message>
    var isGenerating: bool
    var completionInfo: Option<CompletionInfo>
    var errorMessage: Option<string>
    var toolTurnCount: nat
    /** The requests the tool was run on since the last prompt was submitted. */
    ghost var toolLog: seq<ToolCall>
    /** The role and text of each message object, kept in step with `messages`. */
    ghost var transcript: seq<Entry>
    /** The message objects the session may mutate. */
    ghost var Repr: set<Message>

    /** The transcript starts with a system message, holds each message object
        once and is mirrored by `transcript`; the counter is at most one past
        the limit. */
    ghost predicate Valid()
      reads this`messages, this`transcript, this`Repr, this`toolTurnCount, messages
    {
      && |messages| > 0 && messages[0].role == System
      && Distinct(messages)
      && (forall i :: 0 <= i < |messages| ==> messages[i] in Repr)
      && |transcript| == |messages|
      && (forall i :: 0 <= i < |messages| ==> transcript[i] == Entry(messages[i].role, messages[i].content))
      && toolTurnCount <= MaxToolTurns + 1
    }

    /** The transcript as handed to the backend. */
    function Transcript(): (r: seq<Entry>)
      reads this`messages, this`transcript, this`Repr, this`toolTurnCount, messages
      ensures Valid() ==> r == transcript
    {
      Entries(messages)
    }

    ghost function State(): ChatState
      reads this
    {
      ChatState(prompt, transcript, isGenerating, toolTurnCount, completionInfo, errorMessage, toolLog)
    }

    ghost function Current(): Session
      reads this
    {
      Session(transcript, toolTurnCount, completionInfo, errorMessage, toolLog)
    }

    /** A new session: an empty prompt and a transcript holding only the
        system message. */
    constructor ()
      ensures Valid()
      ensures State() == ChatState([], [Entry(System, SystemPrompt)], false, 0, None, None, [])
    {
      var system := new Message(System, SystemPrompt);
      prompt := [];
      messages := [system];
      isGenerating := false;
      completionInfo := None;
      errorMessage := None;
      toolTurnCount := 0;
      toolLog := [];
      transcript := [Entry(System, SystemPrompt)];
      Repr := {system};
    }

    /** `tokensPerSecond`: the last reported throughput, 0 before any
        report and after `clear(.meta)`. */
    function TokensPerSecond(): (r: real)
      reads this
      ensures completionInfo.None? ==> r == 0.0
      ensures completionInfo.Some? ==> r == completionInfo.value.tokensPerSecond
    {
      Throughput(completionInfo)
    }

    /** Replaces the transcript by a new system message alone. */
    method ResetChat()
      requires Valid()
      modifies this`messages, this`transcript, this`Repr
      ensures Valid() && fresh(Repr - old(Repr))
      ensures transcript == [Entry(System, SystemPrompt)]
    {
      var system := Message.System(SystemPrompt);
      messages := [system];
      transcript := [Entry(System, SystemPrompt)];
      Repr := Repr + {system};
    }

    /** `clear(_:)`: resets the parts the options name; the error is always
        cleared. */
    method Clear(options: set<ClearOption>)
      requires Valid()
      modifies this
      ensures Valid() && fresh(Repr - old(Repr))
      ensures State() == ClearSpec(old(State()), options)
    {
      if Prompt in options {
        prompt := [];
      }
      if Chat in options {
        ResetChat();
      }
      if Meta in options {
        completionInfo := None;
      }
      errorMessage := None;
    }

    /** The `for await` loop of `runGenerationLoop`: each event's chunk is
        appended to `last`, its info replaces the completion info, and the
        first tool call ends the loop. */
    method StreamInto(last: Message, events: seq<Event>) returns (call: Option<ToolCall>)
      modifies this`completionInfo, last
      ensures last.content == old(last.content) + Chunks(Applied(events))
      ensures completionInfo == LatestInfo(Applied(events), old(completionInfo))
      ensures call == DetectedCall(events)
    {
      var i := 0;
      call := None;
      while i < |events|
        invariant 0 <= i <= |events|
        invariant forall k :: 0 <= k < i ==> events[k].toolCall.None?
        invariant last.content == old(last.content) + Chunks(events[..i])
        invariant completionInfo == LatestInfo(events[..i], old(completionInfo))
      {
        var event := events[i];
        assert events[..i + 1][..i] == events[..i];
        if event.chunk.Some? {
          last.content := last.content + event.chunk.value;
        }
        if event.info.Some? {
          completionInfo := event.info;
        }
        if event.toolCall.Some? {
          call := event.toolCall;
          i := i + 1;
          break;
        }
        i := i + 1;
      }
      AppliedCountUnique(events, i);
      assert Applied(events) == events[..i];
    }

    /** Consumes one stream into the last message of the transcript. */
    method ConsumeStream(events: seq<Event>) returns (call: Option<ToolCall>)
      requires Valid()
      modifies this`completionInfo, this`transcript, messages[|messages| - 1]
      ensures Valid() && messages == old(messages)
      ensures transcript == AppendToLast(old(transcript), Chunks(Applied(events)))
      ensures completionInfo == LatestInfo(Applied(events), old(completionInfo))
      ensures call == DetectedCall(events)
    {
      var last := messages[|messages| - 1];
      call := StreamInto(last, events);
      var n := |transcript|;
      ghost var updated := Entry(last.role, last.content);
      assert updated == old(transcript)[n - 1].(content := old(transcript)[n - 1].content + Chunks(Applied(events)));
      transcript := transcript[..n - 1] + [updated];
      assert forall j :: 0 <= j < n - 1 ==> messages[j] != last;
    }

    /** Removes the last message when it is an empty assistant placeholder. */
    method DropEmptyPlaceholder()
      requires Valid()
      modifies this`messages, this`transcript
      ensures Valid()
      ensures transcript == DropPlaceholder(old(transcript))
    {
      var last := messages[|messages| - 1];
      if last.role == Assistant && last.content == [] {
        messages := messages[..|messages| - 1];
        transcript := transcript[..|transcript| - 1];
      }
    }

    method Append(m: Message)
      requires Valid() && m !in messages
      modifies this`messages, this`transcript, this`Repr
      ensures Valid() && Repr == old(Repr) + {m}
      ensures transcript == old(transcript) + [Entry(m.role, m.content)]
    {
      messages := messages + [m];
      transcript := transcript + [Entry(m.role, m.content)];
      Repr := Repr + {m};
    }

    /** Appends `m`, then an empty assistant placeholder for the reply that
        follows it. */
    method AppendWithPlaceholder(m: Message)
      requires Valid() && m !in messages
      modifies this`messages, this`transcript, this`Repr
      ensures Valid() && fresh(Repr - old(Repr) - {m})
      ensures transcript == old(transcript) + [Entry(m.role, m.content), Entry(Assistant, [])]
    {
      Append(m);
      var placeholder := Message.Assistant([]);
      Append(placeholder);
    }

    /** Appends the assistant message that reports the tool-call limit. */
    method AppendLimitMessage()
      requires Valid()
      modifies this`messages, this`transcript, this`Repr
      ensures Valid() && fresh(Repr - old(Repr))
      ensures transcript == old(transcript) + [Entry(Assistant, LimitMessage)]
    {
      var limit := Message.Assistant(LimitMessage);
      Append(limit);
    }

    /** The tool run of `handleToolCall`: drop the empty placeholder, run the
        tool, and on success append its result and a new placeholder. */
    method RunTool(call: ToolCall, tool: ToolRunner) returns (again: bool)
      requires Valid()
      modifies this`messages, this`transcript, this`Repr, this`toolLog, this`errorMessage
      ensures Valid() && fresh(Repr - old(Repr))
      ensures toolLog == old(toolLog) + [call]
      ensures again <==> tool(call).Success?
      ensures again ==> errorMessage == old(errorMessage)
                        && transcript == DropPlaceholder(old(transcript)) + [Entry(Tool, tool(call).value), Entry(Assistant, [])]
      ensures !again ==> errorMessage == Some(tool(call).error) && transcript == DropPlaceholder(old(transcript))
    {
      DropEmptyPlaceholder();
      toolLog := toolLog + [call];
      match tool(call) {
        case Failure(e) =>
          errorMessage := Some(e);
          again := false;
        case Success(output) =>
          var result := Message.Tool(output);
          AppendWithPlaceholder(result);
          again := true;
      }
    }

    /** `handleToolCall` up to its recursive call: count the turn, then
        either append the limit message or run the tool. `again` says whether
        the loop goes on with another stream. */
    method HandleCall(call: ToolCall, tool: ToolRunner, ghost backend: Backend) returns (again: bool)
      requires Valid() && toolTurnCount <= MaxToolTurns
      modifies this`messages, this`transcript, this`Repr, this`toolLog, this`errorMessage, this`toolTurnCount
      ensures Valid() && fresh(Repr - old(Repr))
      ensures toolTurnCount > old(toolTurnCount)
      ensures again ==> toolTurnCount <= MaxToolTurns
                        && RunGenerationLoop(Current(), backend, tool) == old(HandleToolCall(Current(), call, backend, tool))
      ensures !again ==> Current() == old(HandleToolCall(Current(), call, backend, tool))
    {
      ghost var s := Current();
      toolTurnCount := toolTurnCount + 1;
      if toolTurnCount > MaxToolTurns {
        AppendLimitMessage();
        HandleToolCallRefused(s, call, backend, tool);
        return false;
      }
      again := RunTool(call, tool);
      HandleToolCallRan(s, call, backend, tool, again, Current());
    }

    /** One pass of `runGenerationLoop`: open a stream, consume it into the
        last message and hand a detected tool call on. */
    method Step(backend: Backend, tool: ToolRunner) returns (again: bool)
      requires Valid() && toolTurnCount <= MaxToolTurns
      modifies this`messages, this`transcript, this`Repr, this`toolLog, this`errorMessage,
               this`toolTurnCount, this`completionInfo, messages[|messages| - 1]
      ensures Valid() && fresh(Repr - old(Repr))
      ensures toolTurnCount >= old(toolTurnCount) && (again ==> toolTurnCount > old(toolTurnCount))
      ensures again ==> toolTurnCount <= MaxToolTurns
                        && RunGenerationLoop(Current(), backend, tool) == old(RunGenerationLoop(Current(), backend, tool))
      ensures !again ==> Current() == old(RunGenerationLoop(Current(), backend, tool))
    {
      match backend(Transcript()) {
        case OpenFailed(e) =>
          errorMessage := Some(e);
          again := false;
        case Opened(events) =>
          var call := ConsumeStream(events);
          match call {
            case None =>
              again := false;
            case Some(c) =>
              again := HandleCall(c, tool, backend);
          }
      }
    }

    /** The synchronous start of `generate()` for a prompt that is not
        blank: reset the counter, append the trimmed prompt and an empty
        assistant placeholder, and `clear(.prompt)`, which empties the prompt
        and the error. */
    method Submit(trimmed: string)
      requires Valid()
      modifies this, Repr
      ensures Valid() && fresh(Repr - old(Repr))
      ensures Current() == Submitted(old(State()), trimmed)
      ensures prompt == [] && isGenerating
    {
      ghost var start := Submitted(State(), trimmed);
      isGenerating := true;
      toolTurnCount := 0;
      toolLog := [];
      var user := Message.User(trimmed);
      AppendWithPlaceholder(user);
      Clear({Prompt});
      assert Current() == start;
    }

    /** `runGenerationLoop` and `handleToolCall` calling each other until no
        further tool call is handled, unrolled into a loop whose iterations
        are counted by the tool turns. */
    method RunLoop(backend: Backend, tool: ToolRunner)
      requires Valid() && toolTurnCount <= MaxToolTurns
      modifies this`messages, this`transcript, this`Repr, this`toolLog, this`errorMessage,
               this`toolTurnCount, this`completionInfo, Repr
      ensures Valid() && fresh(Repr - old(Repr))
      ensures Current() == old(RunGenerationLoop(Current(), backend, tool))
    {
      ghost var goal := RunGenerationLoop(Current(), backend, tool);
      var running := true;
      while running
        invariant Valid() && fresh(Repr - old(Repr))
        invariant running ==> toolTurnCount <= MaxToolTurns && RunGenerationLoop(Current(), backend, tool) == goal
        invariant !running ==> Current() == goal
        decreases MaxToolTurns + 1 - toolTurnCount, running
      {
        running := Step(backend, tool);
      }
    }

    /** `generate()`: a prompt that trims to nothing is ignored; otherwise
        the prompt is submitted and the loop runs to its end. */
    method Generate(backend: Backend, tool: ToolRunner)
      requires Valid()
      modifies this, Repr
      ensures Valid() && fresh(Repr - old(Repr))
      ensures State() == GenerateSpec(old(State()), backend, tool)
    {
      var trimmed := Trim(prompt);
      if trimmed == [] {
        return;
      }
      Submit(trimmed);
      RunLoop(backend, tool);
      isGenerating := false;
    }

    /** The cancellation handler's one effect on the transcript: the marker
        appended to the last message. */
    method MarkCancelled()
      requires Valid()
      modifies this`transcript, messages[|messages| - 1]
      ensures Valid()
      ensures transcript == AppendToLast(old(transcript), CancelledMarker)
    {
      var last := messages[|messages| - 1];
      last.content := last.content + CancelledMarker;
      transcript := transcript[..|transcript| - 1] + [Entry(last.role, last.content)];
      assert forall j :: 0 <= j < |messages| - 1 ==> messages[j] != last;
    }
  }
}
