/** The chat bot's tool registry and its tool-augmented conversation loop.

    Connecting to a server, the model endpoint and the tool provider are
    oracles: a `ServerEntry` carries what connecting and listing tools gives,
    and `Env` carries the functions that answer a model call and a tool call.

    `process_query` appends to its `messages` list in place, and the
    assistant message it appends at each tool use holds a reference to the
    pass's `assistant_content` list, which later tool uses of the same pass
    keep appending to. The model keeps that sharing: see `Entry`. */
module Databot {
  import opened Shared

  // ---------------------------------------------------------------------
  // The tool registry

  datatype Session = Session(id: nat)

  /** A tool as `list_tools` describes it, and the descriptor
      `available_tools` holds for it. */
  datatype McpTool = McpTool(name: string, description: string, inputSchema: Json)

  /** What connecting to one server gives: a failure before the session is
      registered, a failure of `list_tools` after it, or the listed tools. */
  datatype ConnectOutcome =
    | ConnectFailed(error: string)
    | ListToolsFailed(session: Session, error: string)
    | Listed(session: Session, tools: seq<McpTool>)

  datatype ServerEntry = ServerEntry(name: string, connection: ConnectOutcome)

  /** `sessions`, `available_tools` and `tool_to_session`. */
  datatype Registry = Registry(sessions: seq<Session>, tools: seq<McpTool>, routes: map<string, Session>)

  function ToolNames(tools: seq<McpTool>): set<string> {
    set i | 0 <= i < |tools| :: tools[i].name
  }

  /** `tool_to_session[tool.name] = session` for each listed tool, in order. */
  function Route(routes: map<string, Session>, tools: seq<McpTool>, session: Session): map<string, Session> {
    if tools == [] then routes
    else Route(routes, tools[..|tools| - 1], session)[tools[|tools| - 1].name := session]
  }

  /** Routing adds exactly the listed names, sends each of them to the
      session, and keeps every other entry. */
  lemma {:induction false} RouteSendsListedTools(routes: map<string, Session>, tools: seq<McpTool>, session: Session)
    ensures Route(routes, tools, session).Keys == routes.Keys + ToolNames(tools)
    ensures forall i :: 0 <= i < |tools| ==> Route(routes, tools, session)[tools[i].name] == session
    ensures forall n :: n in routes && n !in ToolNames(tools) ==> Route(routes, tools, session)[n] == routes[n]
  {
    if tools != [] {
      var init := tools[..|tools| - 1];
      RouteSendsListedTools(routes, init, session);
      assert ToolNames(tools) == ToolNames(init) + {tools[|tools| - 1].name} by {
        assert forall i :: 0 <= i < |init| ==> init[i] == tools[i];
      }
    }
  }

  /** The registry after `connect_to_server`. */
  function Connect(reg: Registry, connection: ConnectOutcome): Registry {
    match connection
    case ConnectFailed(_) => reg
    case ListToolsFailed(session, _) => reg.(sessions := reg.sessions + [session])
    case Listed(session, tools) =>
      Registry(reg.sessions + [session], reg.tools + tools, Route(reg.routes, tools, session))
  }

  /** The registry after connecting to each configured server in turn. */
  function ConnectAll(reg: Registry, servers: seq<ServerEntry>): Registry {
    if servers == [] then reg
    else Connect(ConnectAll(reg, servers[..|servers| - 1]), servers[|servers| - 1].connection)
  }

  predicate Lists(connection: ConnectOutcome, name: string) {
    connection.Listed? && name in ToolNames(connection.tools)
  }

  /** A tool name is routed to the last server that listed it. */
  lemma {:induction false} LaterServerWins(reg: Registry, servers: seq<ServerEntry>, i: nat, name: string)
    requires i < |servers| && Lists(servers[i].connection, name)
    requires forall j :: i < j < |servers| ==> !Lists(servers[j].connection, name)
    ensures name in ConnectAll(reg, servers).routes
    ensures ConnectAll(reg, servers).routes[name] == servers[i].connection.session
  {
    var init := servers[..|servers| - 1];
    var last := servers[|servers| - 1].connection;
    if last.Listed? {
      RouteSendsListedTools(ConnectAll(reg, init).routes, last.tools, last.session);
    }
    if i < |servers| - 1 {
      LaterServerWins(reg, init, i, name);
      assert !Lists(last, name);
    } else {
      var k :| 0 <= k < |last.tools| && last.tools[k].name == name;
    }
  }

  lemma {:induction false} ConnectAllAppend(reg: Registry, a: seq<ServerEntry>, b: seq<ServerEntry>)
    ensures ConnectAll(reg, a + b) == ConnectAll(ConnectAll(reg, a), b)
  {
    if b == [] {
      assert a + b == a;
    } else {
      assert (a + b)[..|a + b| - 1] == a + b[..|b| - 1];
      ConnectAllAppend(reg, a, b[..|b| - 1]);
    }
  }

  /** A server that fails to connect is skipped: the servers after it are
      still connected, as if it were not configured. */
  lemma FailedServerIsSkipped(reg: Registry, before: seq<ServerEntry>, failed: ServerEntry, after: seq<ServerEntry>)
    requires failed.connection.ConnectFailed?
    ensures ConnectAll(reg, before + [failed] + after) == ConnectAll(reg, before + after)
  {
    ConnectAllAppend(reg, before + [failed], after);
    ConnectAllAppend(reg, before, after);
    assert (before + [failed])[..|before|] == before;
  }

  // ---------------------------------------------------------------------
  // Messages and the model's view of them

  /** A content block of a model response. Blocks of other types (thinking,
      for instance) are `OtherBlock`. */
  datatype Block =
    | Text(text: string)
    | ToolUse(id: string, name: string, input: Json)
    | OtherBlock(kind: string)

  /** An entry of the transcript as the model receives it. */
  datatype Message =
    | UserMessage(query: string)
    | AssistantMessage(content: seq<Block>)
    | ToolResultMessage(toolUseId: string, result: Json)

  /** An entry of `messages` as `process_query` holds it. An assistant entry
      refers to the `assistant_content` list of pass number `list`, a list
      that keeps growing while that pass goes on. */
  datatype Entry =
    | QueryEntry(query: string)
    | AssistantEntry(list: nat)
    | ResultEntry(toolUseId: string, result: Json)

  function Materialise(e: Entry, lists: seq<seq<Block>>): Message {
    match e
    case QueryEntry(q) => UserMessage(q)
    case AssistantEntry(p) => AssistantMessage(if p < |lists| then lists[p] else [])
    case ResultEntry(id, c) => ToolResultMessage(id, c)
  }

  /** What the model sees of `messages` when the lists are `lists`. */
  function View(entries: seq<Entry>, lists: seq<seq<Block>>): (r: seq<Message>)
    ensures |r| == |entries|
    ensures forall j :: 0 <= j < |entries| ==> r[j] == Materialise(entries[j], lists)
  {
    seq(|entries|, j requires 0 <= j < |entries| => Materialise(entries[j], lists))
  }

  /** The calls `process_query` makes into the outside world, in order. */
  datatype Event =
    | ModelCall(transcript: seq<Message>)
    | ToolCall(session: Session, name: string, input: Json)

  /** `tool_to_session`, `available_tools`, the model endpoint and
      `_call_tool`. */
  datatype Env = Env(
    routes: map<string, Session>,
    tools: seq<McpTool>,
    respond: (seq<McpTool>, seq<Message>) -> Outcome<seq<Block>>,
    callTool: (Session, string, Json) -> Outcome<Json>)

  /** How `process_query` ends: the returned text; the KeyError of an
      unknown tool name; an exception of the tool or of the model; the
      AttributeError of reading `.text` from a non-text block; or the fuel
      running out (the loop itself never stops). */
  datatype TurnOutcome =
    | Answer(text: string)
    | UnknownTool(name: string)
    | ToolFailed(error: string)
    | ModelFailed(error: string)
    | NotText
    | OutOfFuel

  datatype TurnResult = TurnResult(outcome: TurnOutcome, transcript: seq<Message>, events: seq<Event>)

  /** The loop's state inside a pass: `messages`, the lists of the finished
      passes, this pass's `assistant_content`, the current `response`, the
      blocks the `for` loop iterates (the response the pass started with)
      and the position in them, and the calls made so far. */
  datatype Loop = Loop(
    entries: seq<Entry>,
    lists: seq<seq<Block>>,
    current: seq<Block>,
    response: seq<Block>,
    blocks: seq<Block>,
    next: nat,
    events: seq<Event>)

  function Transcript(s: Loop): seq<Message> {
    View(s.entries, s.lists + [s.current])
  }

  function Stop(s: Loop, outcome: TurnOutcome): TurnResult {
    TurnResult(outcome, Transcript(s), s.events)
  }

  datatype StepResult = Continue(state: Loop) | Finish(result: TurnResult)

  /** One iteration of the `for` loop, on `blocks[next]`. */
  function Step(env: Env, s: Loop): (r: StepResult)
    requires s.next < |s.blocks|
    ensures r.Continue? ==> r.state.next == s.next + 1 && r.state.blocks == s.blocks && r.state.lists == s.lists
  {
    var content := s.blocks[s.next];
    match content
    case Text(_) =>
      var s' := s.(current := s.current + [content]);
      if |s.response| == 1 then
        Finish(Stop(s', if s.response[0].Text? then Answer(s.response[0].text) else NotText))
      else
        Continue(s'.(next := s.next + 1))
    case OtherBlock(_) =>
      Continue(s.(next := s.next + 1))
    case ToolUse(id, name, input) =>
      var s' := s.(current := s.current + [content], entries := s.entries + [AssistantEntry(|s.lists|)]);
      if name !in env.routes then
        Finish(Stop(s', UnknownTool(name)))
      else
        var session := env.routes[name];
        var result := env.callTool(session, name, input);
        var s'' := s'.(events := s'.events + [ToolCall(session, name, input)]);
        if result.Raised? then
          Finish(Stop(s'', ToolFailed(result.message)))
        else
          var entries := s''.entries + [ResultEntry(id, result.value)];
          var view := View(entries, s.lists + [s''.current]);
          var s3 := s''.(entries := entries, events := s''.events + [ModelCall(view)]);
          var reply := env.respond(env.tools, view);
          if reply.Raised? then
            Finish(Stop(s3, ModelFailed(reply.message)))
          else if |reply.value| == 1 && reply.value[0].Text? then
            Finish(Stop(s3, Answer(reply.value[0].text)))
          else
            Continue(s3.(response := reply.value, next := s.next + 1))
  }

  /** The state at the start of the next pass of the `while` loop: a fresh
      `assistant_content`, and the blocks of the current response. */
  function NextPass(s: Loop): Loop {
    s.(lists := s.lists + [s.current], current := [], blocks := s.response, next := 0)
  }

  /** The rest of the run from `s`, with `fuel` further passes allowed. */
  function Run(env: Env, s: Loop, fuel: nat): TurnResult
    decreases fuel, |s.blocks| - s.next
  {
    if s.next >= |s.blocks| then
      if fuel == 0 then Stop(NextPass(s), OutOfFuel)
      else Run(env, NextPass(s), fuel - 1)
    else
      match Step(env, s)
      case Finish(r) => r
      case Continue(s') => Run(env, s', fuel)
  }

  function Start(query: string, response: seq<Block>): Loop {
    var entries := [QueryEntry(query)];
    Loop(entries, [], [], response, response, 0, [ModelCall(View(entries, []))])
  }

  /** `process_query`: the first model call, then the passes. */
  function Turn(env: Env, query: string, fuel: nat): TurnResult {
    var first := [UserMessage(query)];
    match env.respond(env.tools, first)
    case Raised(e) => TurnResult(ModelFailed(e), first, [ModelCall(first)])
    case Returned(response) => Run(env, Start(query, response), fuel)
  }

  // ---------------------------------------------------------------------
  // What a run guarantees

  /** `w` is `v` with messages appended, in which assistant messages may have
      gained blocks at their end: how the transcript a model call saw relates
      to every later transcript. */
  predicate Grows(v: seq<Message>, w: seq<Message>) {
    && |v| <= |w|
    && forall j :: 0 <= j < |v| ==>
         v[j] == w[j] || (v[j].AssistantMessage? && w[j].AssistantMessage? && v[j].content <= w[j].content)
  }

  lemma GrowsTransitive(a: seq<Message>, b: seq<Message>, c: seq<Message>)
    requires Grows(a, b) && Grows(b, c)
    ensures Grows(a, c)
  {
    forall j | 0 <= j < |a|
      ensures a[j] == c[j] || (a[j].AssistantMessage? && c[j].AssistantMessage? && a[j].content <= c[j].content)
    {
      if a[j] != c[j] && a[j].AssistantMessage? {
        assert a[j].content <= b[j].content <= c[j].content;
      }
    }
  }

  /** Appending entries and growing lists only grows the view. */
  lemma ViewGrows(e1: seq<Entry>, l1: seq<seq<Block>>, e2: seq<Entry>, l2: seq<seq<Block>>)
    requires e1 <= e2 && |l1| <= |l2|
    requires forall p :: 0 <= p < |l1| ==> l1[p] <= l2[p]
    ensures Grows(View(e1, l1), View(e2, l2))
  {
    forall j | 0 <= j < |e1|
      ensures View(e1, l1)[j] == View(e2, l2)[j]
              || (View(e1, l1)[j].AssistantMessage? && View(e2, l2)[j].AssistantMessage?
                  && View(e1, l1)[j].content <= View(e2, l2)[j].content)
    {
      assert e1[j] == e2[j];
    }
  }

  /** In transcript `t`, the message at `j` is an assistant message whose
      last block is a tool use of `name` with `input`, and the message after
      it is the result for that block's id, holding `output`. */
  predicate PairedAt(t: seq<Message>, j: nat, name: string, input: Json, output: Json)
    requires j + 1 < |t|
  {
    && t[j].AssistantMessage?
    && |t[j].content| > 0
    && var use := t[j].content[|t[j].content| - 1];
       && use.ToolUse? && use.name == name && use.input == input
       && t[j + 1] == ToolResultMessage(use.id, output)
  }

  /** Tool round `k`: event `2k+1` calls the tool on the session its name is
      routed to, and event `2k+2` is the one model call that follows, whose
      transcript ends with the assistant message holding that tool use and
      the message with the tool's result. */
  predicate RoundOk(env: Env, events: seq<Event>, k: nat)
    requires 2 * k + 2 < |events|
  {
    var call := events[2 * k + 1];
    var model := events[2 * k + 2];
    && call.ToolCall? && model.ModelCall?
    && call.name in env.routes && call.session == env.routes[call.name]
    && env.callTool(call.session, call.name, call.input).Returned?
    && |model.transcript| == 2 * k + 3
    && PairedAt(model.transcript, 2 * k + 1, call.name, call.input,
                env.callTool(call.session, call.name, call.input).value)
  }

  /** In transcript `t`, the assistant message of tool round `k` ends with
      the tool use event `2k+1` called, and the message after it holds that
      call's result. */
  predicate RoundPairedIn(env: Env, events: seq<Event>, t: seq<Message>, k: nat)
    requires 2 * k + 1 < |events|
  {
    var call := events[2 * k + 1];
    && call.ToolCall?
    && 2 * k + 2 < |t|
    && env.callTool(call.session, call.name, call.input).Returned?
    && PairedAt(t, 2 * k + 1, call.name, call.input, env.callTool(call.session, call.name, call.input).value)
  }

  ghost predicate RoundsOk(env: Env, events: seq<Event>) {
    forall k: nat :: 2 * k + 2 < |events| ==> RoundOk(env, events, k)
  }

  /** Every transcript a model call saw grows into `t`. */
  predicate SeenGrows(events: seq<Event>, t: seq<Message>) {
    forall j :: 0 <= j < |events| && events[j].ModelCall? ==> Grows(events[j].transcript, t)
  }

  /** The last call is a model call, answered with `reply`. */
  predicate LastAnswered(env: Env, events: seq<Event>, reply: Outcome<seq<Block>>) {
    && |events| > 0
    && events[|events| - 1].ModelCall?
    && env.respond(env.tools, events[|events| - 1].transcript) == reply
  }

  /** What holds of the loop's state between blocks. */
  ghost predicate Inv(env: Env, query: string, s: Loop) {
    && |s.events| % 2 == 1
    && |s.entries| == |s.events|
    && s.entries[0] == QueryEntry(query)
    && s.events[0] == ModelCall([UserMessage(query)])
    && RoundsOk(env, s.events)
    && SeenGrows(s.events, Transcript(s))
    && LastAnswered(env, s.events, Returned(s.response))
  }

  /** What holds of every result of `process_query`: the first call is the
      model call on the user's query and the transcript starts with it; the
      tool rounds pair as `RoundOk` says; every transcript the model saw grows
      into the final one; and each outcome has its cause. */
  ghost predicate FinalOk(env: Env, query: string, r: TurnResult) {
    && |r.events| > 0
    && r.events[0] == ModelCall([UserMessage(query)])
    && |r.transcript| > 0
    && r.transcript[0] == UserMessage(query)
    && RoundsOk(env, r.events)
    && SeenGrows(r.events, r.transcript)
    && var last := r.events[|r.events| - 1];
       match r.outcome
       case Answer(t) => LastAnswered(env, r.events, Returned([Text(t)]))
       case NotText =>
         && last.ModelCall?
         && var reply := env.respond(env.tools, last.transcript);
            reply.Returned? && |reply.value| == 1 && !reply.value[0].Text?
       case UnknownTool(name) =>
         && name !in env.routes
         && |r.events| % 2 == 1
         && last.ModelCall?
         && var m := r.transcript[|r.transcript| - 1];
            m.AssistantMessage? && |m.content| > 0
            && m.content[|m.content| - 1].ToolUse? && m.content[|m.content| - 1].name == name
       case ToolFailed(e) =>
         && |r.events| % 2 == 0
         && last.ToolCall?
         && last.name in env.routes && last.session == env.routes[last.name]
         && env.callTool(last.session, last.name, last.input) == Raised(e)
       case ModelFailed(e) => LastAnswered(env, r.events, Raised(e))
       case OutOfFuel => last.ModelCall? && env.respond(env.tools, last.transcript).Returned?
  }

  lemma ExtendCurrent(lists: seq<seq<Block>>, current: seq<Block>, more: seq<Block>)
    ensures forall p :: 0 <= p < |lists + [current]| ==> (lists + [current])[p] <= (lists + [current + more])[p]
  {
    forall p | 0 <= p < |lists + [current]|
      ensures (lists + [current])[p] <= (lists + [current + more])[p]
    {
      if p == |lists| {
        assert (current + more)[..|current|] == current;
      }
    }
  }

  /** Appending blocks to the current list only grows the transcript. */
  lemma TranscriptGrows(s: Loop, entries: seq<Entry>, more: seq<Block>)
    requires s.entries <= entries
    ensures Grows(Transcript(s), View(entries, s.lists + [s.current + more]))
  {
    ExtendCurrent(s.lists, s.current, more);
    ViewGrows(s.entries, s.lists + [s.current], entries, s.lists + [s.current + more]);
  }

  lemma SeenGrowsOn(events: seq<Event>, t: seq<Message>, t': seq<Message>)
    requires SeenGrows(events, t) && Grows(t, t')
    ensures SeenGrows(events, t')
  {
    forall j | 0 <= j < |events| && events[j].ModelCall?
      ensures Grows(events[j].transcript, t')
    {
      GrowsTransitive(events[j].transcript, t, t');
    }
  }

  /** A text block ends the turn exactly when the current response is one
      block long, with that block's text (or the AttributeError of a block
      without one); otherwise the loop goes on to the next block. */
  lemma StepText(env: Env, query: string, s: Loop)
    requires Inv(env, query, s) && s.next < |s.blocks| && s.blocks[s.next].Text?
    ensures Step(env, s).Continue? ==> Inv(env, query, Step(env, s).state)
    ensures Step(env, s).Finish? ==> FinalOk(env, query, Step(env, s).result)
    ensures |s.response| == 1 ==>
      Step(env, s).Finish?
      && Step(env, s).result.outcome == (if s.response[0].Text? then Answer(s.response[0].text) else NotText)
      && Step(env, s).result.events == s.events
    ensures |s.response| != 1 ==> Step(env, s).Continue?
  {
    var s' := s.(current := s.current + [s.blocks[s.next]]);
    TranscriptGrows(s, s.entries, [s.blocks[s.next]]);
    SeenGrowsOn(s.events, Transcript(s), Transcript(s'));
    assert Transcript(s')[0] == UserMessage(query);
    if |s.response| == 1 && s.response[0].Text? {
      assert s.response == [Text(s.response[0].text)];
    }
  }

  lemma StepOther(env: Env, query: string, s: Loop)
    requires Inv(env, query, s) && s.next < |s.blocks| && s.blocks[s.next].OtherBlock?
    ensures Step(env, s).Continue? && Inv(env, query, Step(env, s).state)
  {
  }

  lemma RoundsOkAppend(env: Env, events: seq<Event>, more: seq<Event>)
    requires RoundsOk(env, events)
    ensures forall k: nat :: 2 * k + 2 < |events| ==> RoundOk(env, events + more, k)
  {
    forall k: nat | 2 * k + 2 < |events| ensures RoundOk(env, events + more, k) {
      assert RoundOk(env, events, k);
      assert (events + more)[2 * k + 1] == events[2 * k + 1];
      assert (events + more)[2 * k + 2] == events[2 * k + 2];
    }
  }

  /** The state after a tool use whose tool returned `output`: the assistant
      entry and the result entry are appended, and so are the tool call and
      the model call on the new transcript. */
  function AfterTool(s: Loop, content: Block, session: Session, output: Json): Loop
    requires content.ToolUse?
  {
    var entries := s.entries + [AssistantEntry(|s.lists|)] + [ResultEntry(content.id, output)];
    var current := s.current + [content];
    s.(entries := entries, current := current,
       events := s.events + [ToolCall(session, content.name, content.input)]
                 + [ModelCall(View(entries, s.lists + [current]))])
  }

  /** A completed tool round adds one round to `RoundsOk`. */
  lemma AfterToolAddsRound(env: Env, query: string, s: Loop, content: Block)
    requires Inv(env, query, s) && content.ToolUse? && content.name in env.routes
    requires env.callTool(env.routes[content.name], content.name, content.input).Returned?
    ensures var session := env.routes[content.name];
      var s3 := AfterTool(s, content, session, env.callTool(session, content.name, content.input).value);
      RoundsOk(env, s3.events)
  {
    var session := env.routes[content.name];
    var output := env.callTool(session, content.name, content.input).value;
    var s3 := AfterTool(s, content, session, output);
    var more := [ToolCall(session, content.name, content.input), ModelCall(Transcript(s3))];
    assert s3.events == s.events + more;
    RoundsOkAppend(env, s.events, more);
    var k := (|s.events| - 1) / 2;
    var view := Transcript(s3);
    assert view[2 * k + 1] == AssistantMessage(s.current + [content]);
    assert view[2 * k + 2] == ToolResultMessage(content.id, output);
    assert RoundOk(env, s3.events, k);
  }

  /** ... and keeps every transcript the model saw growing. */
  lemma AfterToolKeepsSeen(env: Env, query: string, s: Loop, content: Block, session: Session, output: Json)
    requires Inv(env, query, s) && content.ToolUse?
    ensures var s3 := AfterTool(s, content, session, output);
      && |s3.events| % 2 == 1 && |s3.entries| == |s3.events|
      && s3.entries[0] == QueryEntry(query) && s3.events[0] == ModelCall([UserMessage(query)])
      && SeenGrows(s3.events, Transcript(s3))
      && s3.events[|s3.events| - 1] == ModelCall(Transcript(s3))
  {
    var s3 := AfterTool(s, content, session, output);
    var view := Transcript(s3);
    assert s3.events == s.events + [ToolCall(session, content.name, content.input), ModelCall(view)];
    TranscriptGrows(s, s3.entries, [content]);
    SeenGrowsOn(s.events, Transcript(s), view);
    assert forall j :: 0 <= j < |s.events| ==> s3.events[j] == s.events[j];
  }

  lemma AfterToolKeeps(env: Env, query: string, s: Loop, content: Block)
    requires Inv(env, query, s) && content.ToolUse? && content.name in env.routes
    requires env.callTool(env.routes[content.name], content.name, content.input).Returned?
    ensures var session := env.routes[content.name];
      var s3 := AfterTool(s, content, session, env.callTool(session, content.name, content.input).value);
      && |s3.events| % 2 == 1 && |s3.entries| == |s3.events|
      && s3.entries[0] == QueryEntry(query) && s3.events[0] == ModelCall([UserMessage(query)])
      && RoundsOk(env, s3.events)
      && SeenGrows(s3.events, Transcript(s3))
      && s3.events[|s3.events| - 1] == ModelCall(Transcript(s3))
  {
    var session := env.routes[content.name];
    AfterToolAddsRound(env, query, s, content);
    AfterToolKeepsSeen(env, query, s, content, session, env.callTool(session, content.name, content.input).value);
  }

  /** A tool name with no session ends the turn with the KeyError, before
      any tool is called. */
  lemma StepUnknownTool(env: Env, query: string, s: Loop)
    requires Inv(env, query, s) && s.next < |s.blocks| && s.blocks[s.next].ToolUse?
    requires s.blocks[s.next].name !in env.routes
    ensures Step(env, s).Finish? && FinalOk(env, query, Step(env, s).result)
    ensures Step(env, s).result.outcome == UnknownTool(s.blocks[s.next].name)
    ensures Step(env, s).result.events == s.events
  {
    var content := s.blocks[s.next];
    var entries := s.entries + [AssistantEntry(|s.lists|)];
    var s' := s.(current := s.current + [content], entries := entries);
    TranscriptGrows(s, entries, [content]);
    SeenGrowsOn(s.events, Transcript(s), Transcript(s'));
    assert Transcript(s')[|entries| - 1] == AssistantMessage(s.current + [content]);
  }

  /** A tool that raises ends the turn with its exception, right after the
      one call of that tool on the routed session. */
  lemma StepToolFailed(env: Env, query: string, s: Loop)
    requires Inv(env, query, s) && s.next < |s.blocks| && s.blocks[s.next].ToolUse?
    requires s.blocks[s.next].name in env.routes
    requires env.callTool(env.routes[s.blocks[s.next].name], s.blocks[s.next].name, s.blocks[s.next].input).Raised?
    ensures Step(env, s).Finish? && FinalOk(env, query, Step(env, s).result)
    ensures var c := s.blocks[s.next];
      var session := env.routes[c.name];
      && Step(env, s).result.outcome == ToolFailed(env.callTool(session, c.name, c.input).message)
      && Step(env, s).result.events == s.events + [ToolCall(session, c.name, c.input)]
  {
    var content := s.blocks[s.next];
    var session := env.routes[content.name];
    var entries := s.entries + [AssistantEntry(|s.lists|)];
    var call := ToolCall(session, content.name, content.input);
    var s'' := s.(current := s.current + [content], entries := entries, events := s.events + [call]);
    TranscriptGrows(s, entries, [content]);
    SeenGrowsOn(s.events, Transcript(s), Transcript(s''));
    RoundsOkAppend(env, s.events, [call]);
    assert RoundsOk(env, s''.events);
    assert SeenGrows(s''.events, Transcript(s''));
    assert Step(env, s) == Finish(Stop(s'', ToolFailed(env.callTool(session, content.name, content.input).message)));
  }

  /** After a tool round, the reply to the new transcript decides: a model
      exception ends the turn with it, a reply of one text block ends the turn
      with that text, and any other reply becomes the current response while
      the loop goes on to the next block. */
  lemma StepToolDone(env: Env, query: string, s: Loop)
    requires Inv(env, query, s) && s.next < |s.blocks| && s.blocks[s.next].ToolUse?
    requires s.blocks[s.next].name in env.routes
    requires env.callTool(env.routes[s.blocks[s.next].name], s.blocks[s.next].name, s.blocks[s.next].input).Returned?
    ensures Step(env, s).Continue? ==> Inv(env, query, Step(env, s).state)
    ensures Step(env, s).Finish? ==> FinalOk(env, query, Step(env, s).result)
    ensures var c := s.blocks[s.next];
      var session := env.routes[c.name];
      var s3 := AfterTool(s, c, session, env.callTool(session, c.name, c.input).value);
      var reply := env.respond(env.tools, Transcript(s3));
      && (reply.Raised? ==> Step(env, s) == Finish(Stop(s3, ModelFailed(reply.message))))
      && (reply.Returned? && |reply.value| == 1 && reply.value[0].Text? ==>
            Step(env, s) == Finish(Stop(s3, Answer(reply.value[0].text))))
      && (reply.Returned? && !(|reply.value| == 1 && reply.value[0].Text?) ==>
            Step(env, s) == Continue(s3.(response := reply.value, next := s.next + 1)))
  {
    var content := s.blocks[s.next];
    var session := env.routes[content.name];
    var s3 := AfterTool(s, content, session, env.callTool(session, content.name, content.input).value);
    AfterToolKeeps(env, query, s, content);
    assert Transcript(s3)[0] == UserMessage(query);
    var reply := env.respond(env.tools, Transcript(s3));
    if reply.Raised? {
      assert Step(env, s) == Finish(Stop(s3, ModelFailed(reply.message)));
    } else if |reply.value| == 1 && reply.value[0].Text? {
      assert reply.value == [Text(reply.value[0].text)];
      assert Step(env, s) == Finish(Stop(s3, Answer(reply.value[0].text)));
    } else {
      assert Step(env, s) == Continue(s3.(response := reply.value, next := s.next + 1));
    }
  }

  /** Each iteration of the `for` loop keeps `Inv`, or ends with a result
      that `FinalOk` describes. */
  lemma StepKeeps(env: Env, query: string, s: Loop)
    requires Inv(env, query, s) && s.next < |s.blocks|
    ensures Step(env, s).Continue? ==> Inv(env, query, Step(env, s).state)
    ensures Step(env, s).Finish? ==> FinalOk(env, query, Step(env, s).result)
  {
    var content := s.blocks[s.next];
    match content
    case Text(_) => StepText(env, query, s);
    case OtherBlock(_) => StepOther(env, query, s);
    case ToolUse(_, name, input) =>
      if name !in env.routes {
        StepUnknownTool(env, query, s);
      } else if env.callTool(env.routes[name], name, input).Raised? {
        StepToolFailed(env, query, s);
      } else {
        StepToolDone(env, query, s);
      }
  }

  /** Ending a pass keeps `Inv`; running out of fuel there is a result
      `FinalOk` describes. */
  lemma NextPassKeeps(env: Env, query: string, s: Loop)
    requires Inv(env, query, s)
    ensures Inv(env, query, NextPass(s))
    ensures FinalOk(env, query, Stop(NextPass(s), OutOfFuel))
  {
    var n := NextPass(s);
    ExtendCurrent(s.lists + [s.current], [], []);
    assert s.lists + [s.current] + [[]] == n.lists + [n.current];
    ViewGrows(s.entries, s.lists + [s.current], s.entries, n.lists + [n.current]);
    SeenGrowsOn(s.events, Transcript(s), Transcript(n));
    assert Transcript(n)[0] == UserMessage(query);
  }

  /** Every run from a state `Inv` describes ends as `FinalOk` says. */
  lemma {:induction false} RunKeeps(env: Env, query: string, s: Loop, fuel: nat)
    requires Inv(env, query, s)
    ensures FinalOk(env, query, Run(env, s, fuel))
    decreases fuel, |s.blocks| - s.next
  {
    if s.next >= |s.blocks| {
      NextPassKeeps(env, query, s);
      if fuel > 0 {
        RunKeeps(env, query, NextPass(s), fuel - 1);
      }
    } else {
      StepKeeps(env, query, s);
      if Step(env, s).Continue? {
        RunKeeps(env, query, Step(env, s).state, fuel);
      }
    }
  }

  /** Whatever the model, the tools and the fuel, `process_query` ends as
      `FinalOk` says. */
  lemma TurnEndsWell(env: Env, query: string, fuel: nat)
    ensures FinalOk(env, query, Turn(env, query, fuel))
  {
    var first := [UserMessage(query)];
    match env.respond(env.tools, first)
    case Raised(e) =>
      assert Grows(first, first);
    case Returned(response) =>
      var s := Start(query, response);
      assert View(s.entries, []) == first;
      assert Transcript(s) == first;
      assert Grows(first, first);
      RunKeeps(env, query, s, fuel);
  }

  /** A first reply that is one text block is returned as it is, and no
      tool is called. */
  lemma FirstTextIsAnswer(env: Env, query: string, fuel: nat, t: string)
    requires env.respond(env.tools, [UserMessage(query)]) == Returned([Text(t)])
    ensures Turn(env, query, fuel) == TurnResult(Answer(t), [UserMessage(query)], [ModelCall([UserMessage(query)])])
  {
    var s := Start(query, [Text(t)]);
    assert View(s.entries, []) == [UserMessage(query)];
    assert View(s.entries, [[Text(t)]]) == [UserMessage(query)];
  }

  /** A reply with no tool use that is not a single text block. */
  predicate Stuck(response: seq<Block>) {
    && (forall i :: 0 <= i < |response| ==> !response[i].ToolUse?)
    && !(|response| == 1 && response[0].Text?)
  }

  /** A pass over a stuck reply changes nothing the model or the tools
      see, and the next pass starts over on the same reply. */
  lemma {:induction false} StuckRuns(env: Env, s: Loop, fuel: nat)
    requires s.blocks == s.response && Stuck(s.response)
    ensures Run(env, s, fuel).outcome == OutOfFuel
    ensures Run(env, s, fuel).events == s.events
    ensures |Run(env, s, fuel).transcript| == |s.entries|
    decreases fuel, |s.blocks| - s.next
  {
    if s.next >= |s.blocks| {
      if fuel > 0 {
        StuckRuns(env, NextPass(s), fuel - 1);
      }
    } else {
      assert !s.blocks[s.next].ToolUse?;
      StuckRuns(env, Step(env, s).state, fuel);
    }
  }

  /** A first reply with neither a tool use nor a single text block makes
      the loop go round forever: whatever the fuel, it runs out, after the
      one model call and with no tool called. */
  lemma StuckFirstReplyLoopsForever(env: Env, query: string, fuel: nat, response: seq<Block>)
    requires env.respond(env.tools, [UserMessage(query)]) == Returned(response)
    requires Stuck(response)
    ensures Turn(env, query, fuel).outcome == OutOfFuel
    ensures Turn(env, query, fuel).events == [ModelCall([UserMessage(query)])]
    ensures Turn(env, query, fuel).transcript == [UserMessage(query)]
  {
    var s := Start(query, response);
    assert View(s.entries, []) == [UserMessage(query)];
    StuckRuns(env, s, fuel);
    TurnEndsWell(env, query, fuel);
  }

  /** A model that asks for two tools in one reply, answers the first result
      with two text blocks and the second with "done". */
  function TwoToolsModel(): Env {
    Env(map["t" := Session(0)], [],
        (tools: seq<McpTool>, msgs: seq<Message>) =>
          if |msgs| == 1 then Returned([ToolUse("a", "t", Null), ToolUse("b", "t", Null)])
          else if |msgs| == 3 then Returned([Text("x"), Text("y")])
          else Returned([Text("done")]),
        (session: Session, name: string, input: Json) => Returned(Str("ok")))
  }

  /** The state of the `TwoToolsModel` conversation after its first tool
      round: the model has answered with two text blocks. */
  function TwoToolsAfterFirstRound(): Loop {
    var a, b := ToolUse("a", "t", Null), ToolUse("b", "t", Null);
    var entries := [QueryEntry("q"), AssistantEntry(0), ResultEntry("a", Str("ok"))];
    var seen := [UserMessage("q"), AssistantMessage([a]), ToolResultMessage("a", Str("ok"))];
    Loop(entries, [], [a], [Text("x"), Text("y")], [a, b], 1,
         [ModelCall([UserMessage("q")]), ToolCall(Session(0), "t", Null), ModelCall(seen)])
  }

  lemma TwoToolsFirstRound()
    ensures Step(TwoToolsModel(), Start("q", [ToolUse("a", "t", Null), ToolUse("b", "t", Null)]))
      == Continue(TwoToolsAfterFirstRound())
  {
    var env, a := TwoToolsModel(), ToolUse("a", "t", Null);
    var q := [QueryEntry("q")];
    assert View(q, []) == [UserMessage("q")];
    var e1 := q + [AssistantEntry(0)] + [ResultEntry("a", Str("ok"))];
    var none: seq<Block>, noLists: seq<seq<Block>> := [], [];
    assert none + [a] == [a];
    assert noLists + [[a]] == [[a]];
    var v1 := View(e1, [[a]]);
    assert v1 == [UserMessage("q"), AssistantMessage([a]), ToolResultMessage("a", Str("ok"))];
    assert env.callTool(Session(0), "t", Null) == Returned(Str("ok"));
    assert env.respond([], v1) == Returned([Text("x"), Text("y")]);
  }

  lemma TwoToolsSecondRound()
    ensures var r := Step(TwoToolsModel(), TwoToolsAfterFirstRound());
      && r.Finish?
      && r.result.outcome == Answer("done")
      && r.result.events[..3] == TwoToolsAfterFirstRound().events
      && |r.result.events| == 5
      && r.result.events[4].ModelCall? && |r.result.events[4].transcript| == 5
      && r.result.events[4].transcript[1] == AssistantMessage([ToolUse("a", "t", Null), ToolUse("b", "t", Null)])
      && r.result.events[4].transcript[2] == ToolResultMessage("a", Str("ok"))
  {
    var a, b := ToolUse("a", "t", Null), ToolUse("b", "t", Null);
    var s1 := TwoToolsAfterFirstRound();
    var e2 := s1.entries + [AssistantEntry(0)] + [ResultEntry("b", Str("ok"))];
    var v2 := View(e2, [] + [[a, b]]);
    assert v2[1] == AssistantMessage([a, b]);
    assert v2[2] == ToolResultMessage("a", Str("ok"));
  }

  /** Sharing `assistant_content`: the assistant message the first tool
      round appended holds only the first tool use when the model sees it
      after that round, but both tool uses when the model sees it after the
      second round, where the message following it still answers only the
      first. */
  lemma SharedAssistantMessageGrows()
    ensures var r := Turn(TwoToolsModel(), "q", 0);
      && r.outcome == Answer("done")
      && |r.events| == 5
      && r.events[2].ModelCall? && |r.events[2].transcript| == 3
      && r.events[2].transcript[1] == AssistantMessage([ToolUse("a", "t", Null)])
      && r.events[4].ModelCall? && |r.events[4].transcript| == 5
      && r.events[4].transcript[1] == AssistantMessage([ToolUse("a", "t", Null), ToolUse("b", "t", Null)])
      && r.events[4].transcript[2] == ToolResultMessage("a", Str("ok"))
  {
    TwoToolsFirstRound();
    TwoToolsSecondRound();
    var r := Step(TwoToolsModel(), TwoToolsAfterFirstRound()).result;
    assert r.events[2] == r.events[..3][2];
  }

  /** A reply with at most one tool use, and that as its last block. */
  predicate ToolUseLast(response: seq<Block>) {
    forall i :: 0 <= i < |response| && response[i].ToolUse? ==> i == |response| - 1
  }

  /** A model whose every reply is `ToolUseLast`. */
  ghost predicate RepliesToolUseLast(env: Env) {
    forall v :: env.respond(env.tools, v).Returned? ==> ToolUseLast(env.respond(env.tools, v).value)
  }

  /** Every transcript a model call saw is a prefix of `t`. */
  predicate SeenPrefix(events: seq<Event>, t: seq<Message>) {
    forall j :: 0 <= j < |events| && events[j].ModelCall? ==> events[j].transcript <= t
  }

  /** For a model that places its tool use last: no assistant entry refers
      to the current pass's list before the pass has handled its last block. */
  ghost predicate InvLast(env: Env, s: Loop) {
    && ToolUseLast(s.blocks)
    && (forall j :: 0 <= j < |s.entries| && s.entries[j].AssistantEntry? ==>
          s.entries[j].list < |s.lists| || (s.entries[j].list == |s.lists| && s.next >= |s.blocks|))
    && SeenPrefix(s.events, Transcript(s))
  }

  ghost predicate FinalLast(r: TurnResult) {
    SeenPrefix(r.events, r.transcript)
  }

  /** When no entry refers to the current list, appending entries and
      blocks to the current list only appends to the transcript. */
  lemma TranscriptExtends(s: Loop, entries: seq<Entry>, more: seq<Block>)
    requires s.entries <= entries
    requires forall j :: 0 <= j < |s.entries| && s.entries[j].AssistantEntry? ==> s.entries[j].list < |s.lists|
    ensures Transcript(s) <= View(entries, s.lists + [s.current + more])
  {
    var t, t' := Transcript(s), View(entries, s.lists + [s.current + more]);
    forall j | 0 <= j < |t| ensures t[j] == t'[j] {
      assert entries[j] == s.entries[j];
    }
  }

  lemma SeenPrefixOn(events: seq<Event>, t: seq<Message>, t': seq<Message>)
    requires SeenPrefix(events, t) && t <= t'
    ensures SeenPrefix(events, t')
  {
  }

  lemma StepLastKeeps(env: Env, query: string, s: Loop)
    requires Inv(env, query, s) && InvLast(env, s) && RepliesToolUseLast(env) && s.next < |s.blocks|
    ensures Step(env, s).Continue? ==> InvLast(env, Step(env, s).state)
    ensures Step(env, s).Finish? ==> FinalLast(Step(env, s).result)
  {
    var content := s.blocks[s.next];
    match content
    case Text(_) =>
      TranscriptExtends(s, s.entries, [content]);
    case OtherBlock(_) =>
    case ToolUse(id, name, input) =>
      assert s.next == |s.blocks| - 1;
      var entries := s.entries + [AssistantEntry(|s.lists|)];
      TranscriptExtends(s, entries, [content]);
      if name in env.routes {
        var session := env.routes[name];
        var result := env.callTool(session, name, input);
        if result.Returned? {
          var s3 := AfterTool(s, content, session, result.value);
          TranscriptExtends(s, s3.entries, [content]);
          assert SeenPrefix(s3.events, Transcript(s3)) by {
            SeenPrefixOn(s.events, Transcript(s), Transcript(s3));
            assert forall j :: 0 <= j < |s.events| ==> s3.events[j] == s.events[j];
          }
        }
      }
  }

  lemma NextPassLastKeeps(env: Env, query: string, s: Loop)
    requires Inv(env, query, s) && InvLast(env, s) && RepliesToolUseLast(env) && s.next >= |s.blocks|
    ensures InvLast(env, NextPass(s))
    ensures FinalLast(Stop(NextPass(s), OutOfFuel))
  {
    var n := NextPass(s);
    assert s.lists + [s.current] + [[]] == n.lists + [n.current];
    TranscriptExtends(n, s.entries, []);
    assert Transcript(n) == Transcript(s) by {
      forall j | 0 <= j < |s.entries| ensures Transcript(n)[j] == Transcript(s)[j] { }
    }
  }

  lemma {:induction false} RunLastKeeps(env: Env, query: string, s: Loop, fuel: nat)
    requires Inv(env, query, s) && InvLast(env, s) && RepliesToolUseLast(env)
    ensures FinalLast(Run(env, s, fuel))
    decreases fuel, |s.blocks| - s.next
  {
    if s.next >= |s.blocks| {
      NextPassLastKeeps(env, query, s);
      if fuel > 0 {
        NextPassKeeps(env, query, s);
        RunLastKeeps(env, query, NextPass(s), fuel - 1);
      }
    } else {
      StepLastKeeps(env, query, s);
      StepKeeps(env, query, s);
      if Step(env, s).Continue? {
        RunLastKeeps(env, query, Step(env, s).state, fuel);
      }
    }
  }

  /** With a model that asks for at most one tool per reply, as its last
      block, the sharing of `assistant_content` is harmless: every
      transcript the model saw is a prefix of the final one, so in the
      final transcript each tool round's assistant message ends with the
      tool use and is followed by the result for its id. */
  lemma ToolUseLastPairsTranscript(env: Env, query: string, fuel: nat)
    requires RepliesToolUseLast(env)
    ensures var r := Turn(env, query, fuel);
      && SeenPrefix(r.events, r.transcript)
      && forall k: nat :: 2 * k + 2 < |r.events| ==> RoundPairedIn(env, r.events, r.transcript, k)
  {
    var first := [UserMessage(query)];
    TurnEndsWell(env, query, fuel);
    var r := Turn(env, query, fuel);
    match env.respond(env.tools, first)
    case Raised(e) =>
    case Returned(response) =>
      var s := Start(query, response);
      assert View(s.entries, []) == first;
      assert Transcript(s) == first;
      RunLastKeeps(env, query, s, fuel);
    forall k: nat | 2 * k + 2 < |r.events|
      ensures RoundPairedIn(env, r.events, r.transcript, k)
    {
      assert RoundOk(env, r.events, k);
      var v := r.events[2 * k + 2].transcript;
      assert v <= r.transcript;
      assert v[2 * k + 1] == r.transcript[2 * k + 1] && v[2 * k + 2] == r.transcript[2 * k + 2];
    }
  }

  // ---------------------------------------------------------------------
  // Tool uses are handled one at a time, in the order they were emitted

  /** The blocks a pass appends to `assistant_content`, in order: its text
      and tool-use blocks. */
  function Kept(blocks: seq<Block>): seq<Block> {
    if blocks == [] then []
    else Kept(blocks[..|blocks| - 1]) + (if blocks[|blocks| - 1].OtherBlock? then [] else [blocks[|blocks| - 1]])
  }

  /** The name and input of each tool use among `blocks`, in order. */
  function ToolUses(blocks: seq<Block>): seq<(string, Json)> {
    if blocks == [] then []
    else
      var b := blocks[|blocks| - 1];
      ToolUses(blocks[..|blocks| - 1]) + (if b.ToolUse? then [(b.name, b.input)] else [])
  }

  /** The name and input of each tool call among `events`, in order. */
  function ToolCalls(events: seq<Event>): seq<(string, Json)> {
    if events == [] then []
    else
      var e := events[|events| - 1];
      ToolCalls(events[..|events| - 1]) + (if e.ToolCall? then [(e.name, e.input)] else [])
  }

  /** `assistant_content` holds the text and tool-use blocks handled so far
      in this pass, in order; and the tools called so far are, in order, the
      tool uses of every pass's `assistant_content`. */
  predicate HandledInOrder(s: Loop) {
    && s.next <= |s.blocks|
    && s.current == Kept(s.blocks[..s.next])
    && ToolCalls(s.events) == ToolUses(Concat(s.lists) + s.current)
  }

  lemma KeptSnoc(blocks: seq<Block>, n: nat)
    requires n < |blocks|
    ensures Kept(blocks[..n + 1]) == Kept(blocks[..n]) + (if blocks[n].OtherBlock? then [] else [blocks[n]])
  {
    assert blocks[..n + 1][..n] == blocks[..n];
  }

  lemma ToolUsesSnoc(blocks: seq<Block>, b: Block)
    ensures ToolUses(blocks + [b]) == ToolUses(blocks) + (if b.ToolUse? then [(b.name, b.input)] else [])
  {
    assert (blocks + [b])[..|blocks|] == blocks;
  }

  lemma ToolCallsSnoc(events: seq<Event>, e: Event)
    ensures ToolCalls(events + [e]) == ToolCalls(events) + (if e.ToolCall? then [(e.name, e.input)] else [])
  {
    assert (events + [e])[..|events|] == events;
  }

  lemma StartHandledInOrder(query: string, response: seq<Block>)
    ensures HandledInOrder(Start(query, response))
  {
    var s := Start(query, response);
    ToolCallsSnoc([], s.events[0]);
    assert [] + [s.events[0]] == s.events;
  }

  /** What an iteration of the `for` loop that goes on changes: the block is
      appended to `assistant_content` unless it is of another type, and a
      tool use adds the call of that tool and one model call. */
  lemma StepContinues(env: Env, s: Loop)
    requires s.next < |s.blocks|
    ensures Step(env, s).Continue? ==>
      var c := s.blocks[s.next];
      var t := Step(env, s).state;
        && t.next == s.next + 1 && t.blocks == s.blocks && t.lists == s.lists
        && t.current == s.current + (if c.OtherBlock? then [] else [c])
        && (!c.ToolUse? ==> t.events == s.events)
        && (c.ToolUse? ==>
              && c.name in env.routes
              && |t.events| == |s.events| + 2
              && t.events[..|s.events| + 1] == s.events + [ToolCall(env.routes[c.name], c.name, c.input)]
              && t.events[|s.events| + 1].ModelCall?)
  {
  }

  /** Handling block `s.next` as `StepContinues` describes keeps the order. */
  lemma HandleNextKeepsOrder(s: Loop, t: Loop, session: Session)
    requires HandledInOrder(s) && s.next < |s.blocks|
    requires t.next == s.next + 1 && t.blocks == s.blocks && t.lists == s.lists
    requires t.current == s.current + (if s.blocks[s.next].OtherBlock? then [] else [s.blocks[s.next]])
    requires !s.blocks[s.next].ToolUse? ==> t.events == s.events
    requires s.blocks[s.next].ToolUse? ==>
      && |t.events| == |s.events| + 2
      && t.events[..|s.events| + 1] == s.events + [ToolCall(session, s.blocks[s.next].name, s.blocks[s.next].input)]
      && t.events[|s.events| + 1].ModelCall?
    ensures HandledInOrder(t)
  {
    var c := s.blocks[s.next];
    KeptSnoc(s.blocks, s.next);
    var handled := Concat(s.lists) + s.current;
    ToolUsesSnoc(handled, c);
    if c.OtherBlock? {
      assert t.current == s.current;
    } else {
      assert Concat(t.lists) + t.current == handled + [c];
    }
    if c.ToolUse? {
      var call := ToolCall(session, c.name, c.input);
      var e := t.events[|s.events| + 1];
      ToolCallsSnoc(s.events, call);
      ToolCallsSnoc(s.events + [call], e);
      assert t.events == s.events + [call] + [e];
    }
  }

  /** Each iteration of the `for` loop that goes on handles the next block:
      a text or tool-use block is appended to `assistant_content`, and a
      tool use is the one tool called. */
  lemma StepKeepsOrder(env: Env, s: Loop)
    requires HandledInOrder(s) && s.next < |s.blocks|
    ensures Step(env, s).Continue? ==> HandledInOrder(Step(env, s).state)
  {
    StepContinues(env, s);
    if Step(env, s).Continue? {
      var c := s.blocks[s.next];
      var session := if c.ToolUse? then env.routes[c.name] else Session(0);
      HandleNextKeepsOrder(s, Step(env, s).state, session);
    }
  }

  /** A new pass starts with an empty `assistant_content`, the old one
      joining the finished passes. */
  lemma NextPassKeepsOrder(s: Loop)
    requires HandledInOrder(s) && s.next >= |s.blocks|
    ensures HandledInOrder(NextPass(s))
  {
    ConcatSnoc(s.lists, s.current);
    assert Concat(s.lists + [s.current]) + [] == Concat(s.lists) + s.current;
  }

  // ---------------------------------------------------------------------
  // The turn ends at the first reply of one text block

  /** A reply that `process_query` returns from: exactly one text block. */
  predicate OneText(reply: Outcome<seq<Block>>) {
    reply.Returned? && |reply.value| == 1 && reply.value[0].Text?
  }

  /** Every model call but the last was answered, and not with one text
      block. */
  ghost predicate EarlierRepliesGoOn(env: Env, events: seq<Event>) {
    forall j :: 0 <= j < |events| - 1 && events[j].ModelCall? ==>
      env.respond(env.tools, events[j].transcript).Returned? && !OneText(env.respond(env.tools, events[j].transcript))
  }

  /** Between blocks: a current response of one text block is the one the
      pass iterates, and its only block is still to be handled. */
  ghost predicate InvStop(env: Env, s: Loop) {
    && EarlierRepliesGoOn(env, s.events)
    && (OneText(Returned(s.response)) ==> s.blocks == s.response && s.next == 0)
  }

  /** A result of a turn that went on while the replies did and, when the
      last call was answered with one text block, returned its text. */
  ghost predicate FinalStop(env: Env, r: TurnResult) {
    && EarlierRepliesGoOn(env, r.events)
    && (|r.events| > 0 && r.events[|r.events| - 1].ModelCall?
        && OneText(env.respond(env.tools, r.events[|r.events| - 1].transcript))
        ==> r.outcome == Answer(env.respond(env.tools, r.events[|r.events| - 1].transcript).value[0].text))
  }

  /** Calls appended after a model call that did not end the turn, with no
      model call among them but perhaps the last, keep the earlier replies
      going on. */
  lemma GoesOnAppend(env: Env, events: seq<Event>, more: seq<Event>)
    requires EarlierRepliesGoOn(env, events)
    requires |events| > 0 && events[|events| - 1].ModelCall?
    requires var reply := env.respond(env.tools, events[|events| - 1].transcript);
      reply.Returned? && !OneText(reply)
    requires forall i :: 0 <= i < |more| - 1 ==> !more[i].ModelCall?
    ensures EarlierRepliesGoOn(env, events + more)
  {
    var all := events + more;
    assert forall j :: |events| <= j < |all| ==> all[j] == more[j - |events|];
  }

  lemma StepStopKeeps(env: Env, query: string, s: Loop)
    requires Inv(env, query, s) && InvStop(env, s) && s.next < |s.blocks|
    ensures Step(env, s).Continue? ==> InvStop(env, Step(env, s).state)
    ensures Step(env, s).Finish? ==> FinalStop(env, Step(env, s).result)
  {
    var content := s.blocks[s.next];
    match content
    case Text(_) =>
      StepText(env, query, s);
    case OtherBlock(_) =>
    case ToolUse(_, name, input) =>
      if name !in env.routes {
        StepUnknownTool(env, query, s);
      } else {
        var session := env.routes[name];
        if env.callTool(session, name, input).Raised? {
          StepToolFailed(env, query, s);
          GoesOnAppend(env, s.events, [ToolCall(session, name, input)]);
        } else {
          StepToolDone(env, query, s);
          var s3 := AfterTool(s, content, session, env.callTool(session, name, input).value);
          GoesOnAppend(env, s.events, [ToolCall(session, name, input), ModelCall(Transcript(s3))]);
        }
      }
  }

  lemma NextPassStopKeeps(env: Env, query: string, s: Loop)
    requires Inv(env, query, s) && InvStop(env, s) && s.next >= |s.blocks|
    ensures InvStop(env, NextPass(s))
    ensures FinalStop(env, Stop(NextPass(s), OutOfFuel))
  {
  }

  lemma {:induction false} RunStopKeeps(env: Env, query: string, s: Loop, fuel: nat)
    requires Inv(env, query, s) && InvStop(env, s)
    ensures FinalStop(env, Run(env, s, fuel))
    decreases fuel, |s.blocks| - s.next
  {
    if s.next >= |s.blocks| {
      NextPassStopKeeps(env, query, s);
      if fuel > 0 {
        NextPassKeeps(env, query, s);
        RunStopKeeps(env, query, NextPass(s), fuel - 1);
      }
    } else {
      StepStopKeeps(env, query, s);
      StepKeeps(env, query, s);
      if Step(env, s).Continue? {
        RunStopKeeps(env, query, Step(env, s).state, fuel);
      }
    }
  }

  /** `process_query` goes on past every reply that is not one text block
      (or an exception), and stops at the first that is, returning its text:
      on the first reply and after any tool round alike. */
  lemma TurnStopsAtFirstText(env: Env, query: string, fuel: nat)
    ensures FinalStop(env, Turn(env, query, fuel))
  {
    var first := [UserMessage(query)];
    match env.respond(env.tools, first)
    case Raised(e) =>
    case Returned(response) =>
      var s := Start(query, response);
      assert View(s.entries, []) == first;
      assert Transcript(s) == first;
      assert Grows(first, first);
      assert Inv(env, query, s);
      RunStopKeeps(env, query, s, fuel);
  }

  class DataBot {
    var sessions: seq<Session>
    var availableTools: seq<McpTool>
    var toolToSession: map<string, Session>

    function Reg(): Registry
      reads this
    {
      Registry(sessions, availableTools, toolToSession)
    }

    constructor()
      ensures Reg() == Registry([], [], map[])
    {
      sessions := [];
      availableTools := [];
      toolToSession := map[];
    }

    /** `connect_to_server`: a failure is logged and swallowed. */
    method ConnectToServer(server: ServerEntry)
      modifies this
      ensures Reg() == Connect(old(Reg()), server.connection)
    {
      match server.connection
      case ConnectFailed(_) =>
      case ListToolsFailed(session, _) =>
        sessions := sessions + [session];
      case Listed(session, tools) =>
        sessions := sessions + [session];
        var i := 0;
        while i < |tools|
          invariant i <= |tools|
          invariant sessions == old(sessions) + [session]
          invariant availableTools == old(availableTools) + tools[..i]
          invariant toolToSession == Route(old(toolToSession), tools[..i], session)
        {
          assert tools[..i + 1][..i] == tools[..i];
          toolToSession := toolToSession[tools[i].name := session];
          availableTools := availableTools + [McpTool(tools[i].name, tools[i].description, tools[i].inputSchema)];
          i := i + 1;
        }
        assert tools[..i] == tools;
    }

    /** `connect_to_servers`: the configuration file gives the servers (none
        when it has no `mcpServers`), or an error, which is re-raised: then
        `error` holds it and nothing is connected. */
    method ConnectToServers(config: Outcome<Option<seq<ServerEntry>>>) returns (error: Option<string>)
      modifies this
      ensures config.Raised? ==> error == Some(config.message) && Reg() == old(Reg())
      ensures config.Returned? ==>
        error == None && Reg() == ConnectAll(old(Reg()), if config.value.Some? then config.value.value else [])
    {
      if config.Raised? {
        return Some(config.message);
      }
      var servers := if config.value.Some? then config.value.value else [];
      var i := 0;
      while i < |servers|
        invariant i <= |servers|
        invariant Reg() == ConnectAll(old(Reg()), servers[..i])
      {
        assert servers[..i + 1][..i] == servers[..i];
        ConnectToServer(servers[i]);
        i := i + 1;
      }
      assert servers[..i] == servers;
      error := None;
    }

    /** `process_query`, allowed `fuel` passes of the `while` loop after the
        first. `respond` is the model endpoint and `callTool` is
        `_call_tool`. */
    method ProcessQuery(
      query: string,
      respond: (seq<McpTool>, seq<Message>) -> Outcome<seq<Block>>,
      callTool: (Session, string, Json) -> Outcome<Json>,
      fuel: nat)
      returns (result: TurnResult)
      ensures result == Turn(Env(toolToSession, availableTools, respond, callTool), query, fuel)
    {
      var env := Env(toolToSession, availableTools, respond, callTool);
      var messages := [QueryEntry(query)];
      var lists: seq<seq<Block>> := [];
      assert View(messages, lists) == [UserMessage(query)];
      var events := [ModelCall(View(messages, lists))];
      var reply := respond(availableTools, View(messages, lists));
      if reply.Raised? {
        return TurnResult(ModelFailed(reply.message), View(messages, lists), events);
      }
      var response := reply.value;
      var passes := fuel;
      while true
        invariant Run(env, Loop(messages, lists, [], response, response, 0, events), passes) == Turn(env, query, fuel)
        decreases passes
      {
        var done, assistantContent;
        done, result, messages, assistantContent, response, events := Pass(env, messages, lists, response, events, passes);
        if done {
          return;
        }
        lists := lists + [assistantContent];
        if passes == 0 {
          return TurnResult(OutOfFuel, View(messages, lists), events);
        }
        passes := passes - 1;
      }
    }
  }

  /** One pass of the `while` loop of `process_query`: the `for` loop over
      the blocks of `response`, appending to a fresh `assistant_content`.
      Either the turn ends with `result`, or the pass runs to the end of the
      blocks and leaves the state the rest of the run goes on from. */
  method Pass(env: Env, messages0: seq<Entry>, lists: seq<seq<Block>>, response0: seq<Block>,
              events0: seq<Event>, ghost passes: nat)
    returns (done: bool, result: TurnResult, messages: seq<Entry>, assistantContent: seq<Block>,
             response: seq<Block>, events: seq<Event>)
    ensures done ==> result == Run(env, Loop(messages0, lists, [], response0, response0, 0, events0), passes)
    ensures !done ==>
      Run(env, Loop(messages, lists, assistantContent, response, response0, |response0|, events), passes)
      == Run(env, Loop(messages0, lists, [], response0, response0, 0, events0), passes)
  {
    ghost var goal := Run(env, Loop(messages0, lists, [], response0, response0, 0, events0), passes);
    messages, assistantContent, response, events := messages0, [], response0, events0;
    done, result := false, TurnResult(OutOfFuel, [], []);
    var blocks := response0;
    var k := 0;
    while k < |blocks|
      invariant k <= |blocks|
      invariant Run(env, Loop(messages, lists, assistantContent, response, blocks, k, events), passes) == goal
    {
      ghost var s := Loop(messages, lists, assistantContent, response, blocks, k, events);
      var content := blocks[k];
      match content {
        case Text(_) =>
          assistantContent := assistantContent + [content];
          if |response| == 1 {
            var outcome := if response[0].Text? then Answer(response[0].text) else NotText;
            result := TurnResult(outcome, View(messages, lists + [assistantContent]), events);
            assert Step(env, s) == Finish(result);
            return true, result, messages, assistantContent, response, events;
          }
          assert Step(env, s) == Continue(Loop(messages, lists, assistantContent, response, blocks, k + 1, events));
        case ToolUse(id, name, input) =>
          assistantContent := assistantContent + [content];
          messages := messages + [AssistantEntry(|lists|)];
          if name !in env.routes {
            result := TurnResult(UnknownTool(name), View(messages, lists + [assistantContent]), events);
            assert Step(env, s) == Finish(result);
            return true, result, messages, assistantContent, response, events;
          }
          var session := env.routes[name];
          var output := env.callTool(session, name, input);
          events := events + [ToolCall(session, name, input)];
          if output.Raised? {
            result := TurnResult(ToolFailed(output.message), View(messages, lists + [assistantContent]), events);
            assert Step(env, s) == Finish(result);
            return true, result, messages, assistantContent, response, events;
          }
          messages := messages + [ResultEntry(id, output.value)];
          var view := View(messages, lists + [assistantContent]);
          events := events + [ModelCall(view)];
          var reply := env.respond(env.tools, view);
          if reply.Raised? {
            result := TurnResult(ModelFailed(reply.message), view, events);
            assert Step(env, s) == Finish(result);
            return true, result, messages, assistantContent, response, events;
          }
          response := reply.value;
          if |response| == 1 && response[0].Text? {
            result := TurnResult(Answer(response[0].text), view, events);
            assert Step(env, s) == Finish(result);
            return true, result, messages, assistantContent, response, events;
          }
          assert Step(env, s) == Continue(Loop(messages, lists, assistantContent, response, blocks, k + 1, events));
        case OtherBlock(_) =>
          assert Step(env, s) == Continue(Loop(messages, lists, assistantContent, response, blocks, k + 1, events));
      }
      k := k + 1;
    }
  }
}
