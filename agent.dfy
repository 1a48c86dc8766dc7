/**
 * The agent loop's deterministic parts (core/agent.py): the provider check,
 * the end-or-continue routing, the element listing given to the model, and
 * the node that runs the model's tool calls.
 */
module Agent {
  import opened Wrappers
  import opened Text
  import opened Grounding
  import opened Manager
  import opened Tools

  /** The chat model the constructor binds; `temperature` is always 0. */
  datatype ChatModel = ChatModel(provider: string, model: string, temperature: int)

  /** The constructor's choice of model, or the ValueError it raises for any other provider. */
  function ProviderModel(provider: string := "openai"): (r: Result<ChatModel, string>)
    ensures r.Ok? <==> provider == "openai" || provider == "anthropic"
    ensures r.Ok? ==> r.value.provider == provider && r.value.temperature == 0
    ensures r.Err? ==> r.error == "Invalid model provider"
  {
    if provider == "openai" then Ok(ChatModel("openai", "gpt-4o", 0))
    else if provider == "anthropic" then Ok(ChatModel("anthropic", "claude-3-5-sonnet-20240620", 0))
    else Err("Invalid model provider")
  }

  datatype ToolCall = ToolCall(name: string, args: map<string, Arg>, id: string)

  datatype Message =
    | SystemMessage(content: string)
    | HumanMessage(content: string)
    | AiMessage(content: string, toolCalls: seq<ToolCall>)
    | ToolMessage(toolCallId: string, content: string)

  datatype Route = Continue | End

  /** `any(tc['name'] == 'done' for tc in calls)`. */
  function CallsDone(calls: seq<ToolCall>): (r: bool)
    ensures r <==> exists k :: 0 <= k < |calls| && calls[k].name == "done"
  {
    if calls == [] then false
    else calls[0].name == "done" || CallsDone(calls[1..])
  }

  /**
   * `should_continue`: end when the model's last message calls no tool or
   * calls `done` (alongside anything else); otherwise go on to the tools.
   * The graph only routes here right after the model answered.
   */
  function ShouldContinue(messages: seq<Message>): (r: Route)
    requires |messages| > 0 && messages[|messages| - 1].AiMessage?
    ensures var calls := messages[|messages| - 1].toolCalls;
      r == Continue <==> |calls| > 0 && forall k :: 0 <= k < |calls| ==> calls[k].name != "done"
  {
    var last := messages[|messages| - 1];
    if |last.toolCalls| == 0 then End
    else if CallsDone(last.toolCalls) then End
    else Continue
  }

  /** One line of the element listing. */
  function ItemLine(item: ElementRecord): string {
    "ID: " + NatToString(item.id) + " | Tag: " + item.tag + " | Text: " + item.text
  }

  /** `item_text`: one line per item, in item order, joined by newlines. */
  function ItemText(items: seq<ElementRecord>): (listing: string)
    ensures listing == "" <==> items == []
    ensures items != [] ==> ItemLine(items[0]) <= listing
  {
    Join(seq(|items|, k requires 0 <= k < |items| => ItemLine(items[k])), '\n')
  }

  /**
   * When no tag or text holds a newline, the listing splits back into exactly
   * one line per item, in item order; with no items it is empty.
   */
  lemma ItemTextLines(items: seq<ElementRecord>)
    requires forall k :: 0 <= k < |items| ==> '\n' !in items[k].tag && '\n' !in items[k].text
    ensures items == [] ==> ItemText(items) == ""
    ensures items != [] ==> Split(ItemText(items), '\n') == seq(|items|, k requires 0 <= k < |items| => ItemLine(items[k]))
  {
    var lines := seq(|items|, k requires 0 <= k < |items| => ItemLine(items[k]));
    if items != [] {
      forall line | line in lines ensures '\n' !in line {
        var k :| 0 <= k < |items| && lines[k] == line;
        assert '\n' !in NatToString(items[k].id);
      }
      SplitOfJoin(lines, '\n');
    }
  }

  /**
   * The perception half of `call_model`: when a page is open, capture it
   * (which replaces the session's cache) and list its items for the model;
   * otherwise list nothing. The model call itself is outside this model.
   */
  method CallModel(b: BrowserManager, shot: string) returns (listing: Option<string>)
    requires b.Valid()
    modifies b`lastItems, b`effects, b.page
    ensures b.Valid()
    ensures old(b.page) == null ==> listing == None && b.lastItems == old(b.lastItems) && b.effects == old(b.effects)
    ensures b.page == old(b.page)
    ensures old(b.page) != null ==>
              && b.lastItems == Some(GroundingRecords(old(b.page.candidates)))
              && listing == Some(ItemText(b.lastItems.value))
              && b.effects == old(b.effects) + [EvaluateGrounding, Screenshot(false, IdTexts(b.lastItems.value))]
              && b.page.nodes == Unmarked(old(b.page.nodes)) + MarkersFor(b.lastItems.value, b.page.scrollX, b.page.scrollY)
              && b.page.candidates == old(b.page.candidates)
              && b.page.scrollX == old(b.page.scrollX) && b.page.scrollY == old(b.page.scrollY)
  {
    if b.page == null {
      return None;
    }
    var r := b.CaptureState(shot);
    listing := Some(ItemText(r.value.items));
  }

  /** Whether a call names a registered tool and carries that tool's parameters. */
  predicate CallFits(call: ToolCall) {
    var t := FindTool(GetTools(), call.name);
    t.Some? && ArgsFit(t.value, call.args)
  }

  /**
   * The result message `m` answers `call` against the cache `cache`: the
   * call fits, and `m` carries its id and its tool's report.
   */
  predicate Answers(call: ToolCall, m: Message, cache: Option<seq<ElementRecord>>) {
    && CallFits(call)
    && m.ToolMessage?
    && m.toolCallId == call.id
    && m.content == ToolReport(FindTool(GetTools(), call.name).value, call.args, cache)
  }

  /** The browser calls a call makes: its tool's calls when it fits, none otherwise. */
  function CallEffects(call: ToolCall, cache: Option<seq<ElementRecord>>, started: bool, headless: bool): seq<Effect> {
    if CallFits(call) then ToolEffects(FindTool(GetTools(), call.name).value, call.args, cache, started, headless) else []
  }

  /** Whether a call is a `navigate` that runs, which starts the browser when none is. */
  predicate StartsBrowser(call: ToolCall) {
    CallFits(call) && FindTool(GetTools(), call.name).value == NavigateTool
  }

  /** Why `tool_node` stops: StopIteration for an unknown name, or the framework's argument check. */
  datatype NodeFault = UnknownTool(name: string) | InvalidArguments(name: string)

  /** The fault a call that does not fit raises. */
  function MisfitFault(call: ToolCall): NodeFault {
    if FindTool(GetTools(), call.name).None? then UnknownTool(call.name) else InvalidArguments(call.name)
  }

  /** The position of the first call that does not fit, or the number of calls when all fit. */
  function FirstMisfit(calls: seq<ToolCall>): (k: nat)
    ensures k <= |calls|
    ensures forall j :: 0 <= j < k ==> CallFits(calls[j])
    ensures k < |calls| ==> !CallFits(calls[k])
  {
    if calls == [] then 0
    else if !CallFits(calls[0]) then 0
    else FirstMisfit(calls[1..]) + 1
  }

  /**
   * The browser calls `tool_node` makes for `calls` against a fixed cache:
   * each call in turn, with the browser as the calls before it left it,
   * up to the first call that does not fit.
   */
  function NodeEffects(calls: seq<ToolCall>, cache: Option<seq<ElementRecord>>, started: bool, headless: bool): seq<Effect> {
    if calls == [] || !CallFits(calls[0]) then []
    else CallEffects(calls[0], cache, started, headless)
         + NodeEffects(calls[1..], cache, started || StartsBrowser(calls[0]), headless)
  }

  /** Whether the browser is started after `tool_node` ran `calls`, starting from `started`. */
  function NodeStarted(calls: seq<ToolCall>, started: bool): bool {
    if calls == [] || !CallFits(calls[0]) then started
    else NodeStarted(calls[1..], started || StartsBrowser(calls[0]))
  }

  /**
   * The calls still to run from position `i`: the call at `i`, when it fits,
   * adds its browser calls and possibly starts the browser; when it does
   * not, nothing more happens.
   */
  lemma NodeStep(calls: seq<ToolCall>, i: nat, cache: Option<seq<ElementRecord>>, browser: bool, headless: bool)
    requires i < |calls|
    ensures NodeEffects(calls[i..], cache, browser, headless)
            == if CallFits(calls[i])
               then CallEffects(calls[i], cache, browser, headless)
                    + NodeEffects(calls[i + 1..], cache, browser || StartsBrowser(calls[i]), headless)
               else []
    ensures NodeStarted(calls[i..], browser)
            == if CallFits(calls[i]) then NodeStarted(calls[i + 1..], browser || StartsBrowser(calls[i])) else browser
  {
    assert calls[i..][1..] == calls[i + 1..];
  }

  /** How many times `effects` launches Chromium. */
  function Launches(effects: seq<Effect>): nat {
    if effects == [] then 0
    else (if effects[0].LaunchChromium? then 1 else 0) + Launches(effects[1..])
  }

  lemma {:induction false} LaunchesAppend(a: seq<Effect>, b: seq<Effect>)
    ensures Launches(a + b) == Launches(a) + Launches(b)
  {
    if a == [] {
      assert a + b == b;
    } else {
      assert (a + b)[0] == a[0];
      assert (a + b)[1..] == a[1..] + b;
      LaunchesAppend(a[1..], b);
    }
  }

  lemma {:induction false} LaunchesNone(effects: seq<Effect>)
    requires forall k :: 0 <= k < |effects| ==> !effects[k].LaunchChromium?
    ensures Launches(effects) == 0
  {
    if effects != [] {
      LaunchesNone(effects[1..]);
    }
  }

  /** A call launches Chromium once when it is a `navigate` that finds no browser, and otherwise not at all. */
  lemma CallLaunches(call: ToolCall, cache: Option<seq<ElementRecord>>, started: bool, headless: bool)
    ensures Launches(CallEffects(call, cache, started, headless)) == if StartsBrowser(call) && !started then 1 else 0
  {
    var effects := CallEffects(call, cache, started, headless);
    if StartsBrowser(call) && !started {
      var start := StartEffects(headless);
      var visit := effects[4..];
      assert effects == start + visit;
      LaunchesNone(start[1..][1..]);
      assert Launches(start) == 1;
      LaunchesNone(visit);
      LaunchesAppend(start, visit);
    } else {
      LaunchesNone(effects);
    }
  }

  /** Once the browser is started, no call of the node stops it. */
  lemma {:induction false} NodeStaysStarted(calls: seq<ToolCall>)
    ensures NodeStarted(calls, true)
  {
    if calls != [] && CallFits(calls[0]) {
      NodeStaysStarted(calls[1..]);
    }
  }

  /**
   * `navigate` starts the browser only when none is started, so a tool node
   * launches Chromium at most once: exactly once when it found no browser
   * and left one started, and never otherwise.
   */
  lemma {:induction false} NodeLaunchesOnce(calls: seq<ToolCall>, cache: Option<seq<ElementRecord>>, started: bool, headless: bool)
    ensures Launches(NodeEffects(calls, cache, started, headless)) == if !started && NodeStarted(calls, started) then 1 else 0
  {
    if calls != [] && CallFits(calls[0]) {
      var after := started || StartsBrowser(calls[0]);
      LaunchesAppend(CallEffects(calls[0], cache, started, headless), NodeEffects(calls[1..], cache, after, headless));
      CallLaunches(calls[0], cache, started, headless);
      NodeLaunchesOnce(calls[1..], cache, after, headless);
      if after {
        NodeStaysStarted(calls[1..]);
      }
    }
  }

  /** Answering one more call extends the answers given so far. */
  lemma AnswersStep(calls: seq<ToolCall>, outputs: seq<Message>, m: Message, cache: Option<seq<ElementRecord>>)
    requires |outputs| < |calls|
    requires forall k :: 0 <= k < |outputs| ==> Answers(calls[k], outputs[k], cache)
    requires Answers(calls[|outputs|], m, cache)
    ensures forall k :: 0 <= k < |outputs| + 1 ==> Answers(calls[k], (outputs + [m])[k], cache)
  {
    forall k | 0 <= k < |outputs| + 1 ensures Answers(calls[k], (outputs + [m])[k], cache) {
      if k < |outputs| {
        assert (outputs + [m])[k] == outputs[k];
      }
    }
  }

  /** One turn of `tool_node`'s loop: find the call's tool by name and invoke it with the call's arguments. */
  method RunCall(b: BrowserManager, call: ToolCall) returns (r: Result<Message, NodeFault>)
    requires b.Valid()
    modifies b
    ensures b.Valid()
    ensures b.lastItems == old(b.lastItems)
    ensures r.Ok? <==> CallFits(call)
    ensures r.Ok? ==> Answers(call, r.value, b.lastItems)
    ensures r.Err? ==> r.error == MisfitFault(call)
    ensures b.effects == old(b.effects) + CallEffects(call, b.lastItems, old(b.browser), b.headless)
    ensures b.browser == (old(b.browser) || StartsBrowser(call))
    ensures b.playwright == (old(b.playwright) || b.browser)
    ensures (old(b.browser) || !StartsBrowser(call)) ==> b.page == old(b.page)
  {
    var tool := FindTool(GetTools(), call.name);
    if tool.None? {
      return Err(UnknownTool(call.name));
    }
    var result := Invoke(b, tool.value, call.args);
    if result.None? {
      return Err(InvalidArguments(call.name));
    }
    r := Ok(ToolMessage(call.id, result.value));
  }

  /**
   * `tool_node`: run the last message's tool calls in order, one result
   * message per call carrying that call's id. The first call to an unknown
   * tool, or with arguments that do not fit, stops the node with an error;
   * the calls before it have already acted on the session. No call changes
   * the cache, so every report is read against the cache the node began with.
   */
  method ToolNode(b: BrowserManager, messages: seq<Message>) returns (r: Result<seq<Message>, NodeFault>)
    requires b.Valid()
    requires |messages| > 0 && messages[|messages| - 1].AiMessage?
    modifies b
    ensures b.Valid()
    ensures b.lastItems == old(b.lastItems)
    ensures var calls := messages[|messages| - 1].toolCalls;
      r.Ok? <==> FirstMisfit(calls) == |calls|
    ensures var calls := messages[|messages| - 1].toolCalls;
      r.Ok? ==> |r.value| == |calls| && forall k :: 0 <= k < |calls| ==> Answers(calls[k], r.value[k], b.lastItems)
    ensures var calls := messages[|messages| - 1].toolCalls;
      r.Err? ==> FirstMisfit(calls) < |calls| && r.error == MisfitFault(calls[FirstMisfit(calls)])
    ensures var calls := messages[|messages| - 1].toolCalls;
      && b.effects == old(b.effects) + NodeEffects(calls, b.lastItems, old(b.browser), b.headless)
      && b.browser == NodeStarted(calls, old(b.browser))
    ensures b.playwright == (old(b.playwright) || b.browser)
    ensures old(b.browser) ==> b.page == old(b.page)
  {
    var calls := messages[|messages| - 1].toolCalls;
    var outputs: seq<Message> := [];
    ghost var cache, started, before := b.lastItems, b.browser, b.effects;
    ghost var page0, pw0 := b.page, b.playwright;
    for i := 0 to |calls|
      invariant b.Valid()
      invariant b.lastItems == cache
      invariant |outputs| == i
      invariant forall k :: 0 <= k < i ==> Answers(calls[k], outputs[k], cache)
      invariant before + NodeEffects(calls, cache, started, b.headless) == b.effects + NodeEffects(calls[i..], cache, b.browser, b.headless)
      invariant NodeStarted(calls, started) == NodeStarted(calls[i..], b.browser)
      invariant b.playwright == (pw0 || b.browser)
      invariant started ==> b.browser && b.page == page0
    {
      ghost var effects0, browser0 := b.effects, b.browser;
      NodeStep(calls, i, cache, browser0, b.headless);
      var answer := RunCall(b, calls[i]);
      AppendAssoc(effects0, CallEffects(calls[i], cache, browser0, b.headless),
                  NodeEffects(calls[i + 1..], cache, browser0 || StartsBrowser(calls[i]), b.headless));
      if answer.Err? {
        assert FirstMisfit(calls) == i;
        return Err(answer.error);
      }
      AnswersStep(calls, outputs, answer.value, cache);
      outputs := outputs + [answer.value];
    }
    assert calls[|calls|..] == [];
    r := Ok(outputs);
  }
}
