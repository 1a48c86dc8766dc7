/**
 * The agent's tools (core/tools.py): thin wrappers over one shared session
 * that turn every failure of `interact` into a result string.
 */
module Tools {
  import opened Wrappers
  import opened Text
  import opened Grounding
  import opened Manager

  /**
   * `navigate`: start the browser the first time only, then go to `url`.
   * The session passed in stands for the module-level `browser`.
   */
  method Navigate(b: BrowserManager, url: string) returns (s: string)
    requires b.Valid()
    modifies b
    ensures b.Valid()
    ensures s == "Navigated to " + url
    ensures b.browser && b.lastItems == old(b.lastItems)
    ensures old(b.browser) ==>
              && b.page == old(b.page)
              && b.effects == old(b.effects) + [Goto(url), WaitForLoadState("networkidle")]
    ensures !old(b.browser) ==>
              && fresh(b.page)
              && b.effects == old(b.effects) + StartEffects(b.headless) + [Goto(url), WaitForLoadState("networkidle")]
  {
    if !b.browser {
      b.Start();
    }
    var r := b.Navigate(url);
    assert r.Ok?;
    s := "Navigated to " + url;
  }

  /** `click_element`: never raises; reports the click or the fault. */
  method ClickElement(b: BrowserManager, id: int) returns (s: string)
    requires b.Valid()
    modifies b`effects
    ensures b.Valid()
    ensures Resolve(b.lastItems, id).Ok? ==>
              && s == "Clicked element #" + IntToString(id)
              && b.effects == old(b.effects) + [Click(Resolve(b.lastItems, id).value.selector), WaitForLoadState("networkidle")]
    ensures Resolve(b.lastItems, id).Err? ==>
              && s == "Error clicking element #" + IntToString(id) + ": " + FaultMessage(Resolve(b.lastItems, id).error)
              && b.effects == old(b.effects)
  {
    var r := b.Interact("click", id);
    if r.Ok? {
      s := "Clicked element #" + IntToString(id);
    } else {
      s := "Error clicking element #" + IntToString(id) + ": " + FaultMessage(r.error);
    }
  }

  /** `type_text`: never raises; reports the fill or the fault. */
  method TypeText(b: BrowserManager, id: int, text: string) returns (s: string)
    requires b.Valid()
    modifies b`effects
    ensures b.Valid()
    ensures Resolve(b.lastItems, id).Ok? ==>
              && s == "Typed '" + text + "' into element #" + IntToString(id)
              && b.effects == old(b.effects) + [Fill(Resolve(b.lastItems, id).value.selector, Some(text)), WaitForLoadState("networkidle")]
    ensures Resolve(b.lastItems, id).Err? ==>
              && s == "Error typing into element #" + IntToString(id) + ": " + FaultMessage(Resolve(b.lastItems, id).error)
              && b.effects == old(b.effects)
  {
    var r := b.Interact("type", id, Some(text));
    if r.Ok? {
      s := "Typed '" + text + "' into element #" + IntToString(id);
    } else {
      s := "Error typing into element #" + IntToString(id) + ": " + FaultMessage(r.error);
    }
  }

  /** The fault `scroll` always meets: ids start at 1, so id 0 is never found. */
  function ScrollFault(cache: Option<seq<ElementRecord>>): Fault {
    if cache.None? then NoItems else ElementNotFound(0)
  }

  /**
   * `scroll` asks `interact` for element 0, which no capture numbers, so it
   * always reports an error and never touches the page.
   */
  method Scroll(b: BrowserManager) returns (s: string)
    requires b.Valid()
    modifies b`effects
    ensures b.Valid()
    ensures s == "Error scrolling: " + FaultMessage(ScrollFault(b.lastItems))
    ensures b.effects == old(b.effects)
  {
    if b.lastItems.Some? {
      ResolveCaptured(b.lastItems.value, 0);
    }
    var r := b.Interact("scroll", 0);
    if r.Ok? {
      s := "Scrolled down";
    } else {
      s := "Error scrolling: " + FaultMessage(r.error);
    }
  }

  /** `done`: hands its argument back as the final answer. */
  function Done(result: string): (answer: string)
    ensures answer == result
  {
    result
  }

  datatype Tool = NavigateTool | ClickElementTool | TypeTextTool | ScrollTool | DoneTool

  /** The name each tool is registered under. */
  function ToolName(t: Tool): string {
    match t
    case NavigateTool => "navigate"
    case ClickElementTool => "click_element"
    case TypeTextTool => "type_text"
    case ScrollTool => "scroll"
    case DoneTool => "done"
  }

  /** `get_tools`: the five tools in registration order. */
  function GetTools(): (tools: seq<Tool>)
    ensures seq(|tools|, k requires 0 <= k < |tools| => ToolName(tools[k]))
              == ["navigate", "click_element", "type_text", "scroll", "done"]
  {
    [NavigateTool, ClickElementTool, TypeTextTool, ScrollTool, DoneTool]
  }

  /** `next(t for t in tools if t.name == name)`: the first tool with that name, if any. */
  function FindTool(tools: seq<Tool>, name: string): (r: Option<Tool>)
    ensures r.Some? ==> r.value in tools && ToolName(r.value) == name
    ensures r.None? <==> forall t | t in tools :: ToolName(t) != name
  {
    if tools == [] then None
    else if ToolName(tools[0]) == name then Some(tools[0])
    else FindTool(tools[1..], name)
  }

  /** The registered names have distinct lengths, hence are distinct. */
  lemma ToolNamesDistinct(t: Tool, u: Tool)
    ensures ToolName(t) == ToolName(u) ==> t == u
  {
    assert |ToolName(t)| == |ToolName(u)| ==> t == u;
  }

  /** Each registered tool is found by its own name. */
  lemma {:induction false} FindsOwnTool(t: Tool)
    ensures FindTool(GetTools(), ToolName(t)) == Some(t)
  {
    var ts := GetTools();
    forall u | u in ts ensures ToolName(u) == ToolName(t) ==> u == t {
      ToolNamesDistinct(u, t);
    }
  }

  /** Exactly the five registered names find a tool. */
  lemma FindRegisteredTool(name: string)
    ensures FindTool(GetTools(), name).Some?
      <==> name in {"navigate", "click_element", "type_text", "scroll", "done"}
  {
    var r := FindTool(GetTools(), name);
    if r.Some? {
      assert ToolName(r.value) == name;
    } else {
      assert forall t | t in GetTools() :: ToolName(t) != name;
      assert ToolName(NavigateTool) != name;
      assert ToolName(ClickElementTool) != name;
      assert ToolName(TypeTextTool) != name;
      assert ToolName(ScrollTool) != name;
      assert ToolName(DoneTool) != name;
    }
  }

  /** A tool-call argument value as the model sends it. */
  datatype Arg = IntArg(i: int) | StrArg(s: string)

  /** Whether the arguments carry every parameter the tool declares, with its type. */
  predicate ArgsFit(t: Tool, args: map<string, Arg>) {
    match t
    case NavigateTool => "url" in args && args["url"].StrArg?
    case ClickElementTool => "element_id" in args && args["element_id"].IntArg?
    case TypeTextTool =>
      "element_id" in args && args["element_id"].IntArg? && "text" in args && args["text"].StrArg?
    case ScrollTool => true
    case DoneTool => "result" in args && args["result"].StrArg?
  }

  /** The string a tool returns when invoked with fitting arguments against the cache `cache`. */
  function ToolReport(t: Tool, args: map<string, Arg>, cache: Option<seq<ElementRecord>>): string
    requires ArgsFit(t, args)
  {
    match t
    case NavigateTool => "Navigated to " + args["url"].s
    case ClickElementTool =>
      var id := args["element_id"].i;
      if Resolve(cache, id).Ok? then "Clicked element #" + IntToString(id)
      else "Error clicking element #" + IntToString(id) + ": " + FaultMessage(Resolve(cache, id).error)
    case TypeTextTool =>
      var id := args["element_id"].i;
      if Resolve(cache, id).Ok? then "Typed '" + args["text"].s + "' into element #" + IntToString(id)
      else "Error typing into element #" + IntToString(id) + ": " + FaultMessage(Resolve(cache, id).error)
    case ScrollTool => "Error scrolling: " + FaultMessage(ScrollFault(cache))
    case DoneTool => args["result"].s
  }

  /**
   * The browser calls a tool invoked with fitting arguments makes, against
   * the cache `cache`, when the browser was `started` or not before.
   */
  function ToolEffects(t: Tool, args: map<string, Arg>, cache: Option<seq<ElementRecord>>, started: bool, headless: bool): seq<Effect>
    requires ArgsFit(t, args)
  {
    match t
    case NavigateTool =>
      (if started then [] else StartEffects(headless)) + [Goto(args["url"].s), WaitForLoadState("networkidle")]
    case ClickElementTool =>
      var target := Resolve(cache, args["element_id"].i);
      if target.Ok? then [Click(target.value.selector), WaitForLoadState("networkidle")] else []
    case TypeTextTool =>
      var target := Resolve(cache, args["element_id"].i);
      if target.Ok? then [Fill(target.value.selector, Some(args["text"].s)), WaitForLoadState("networkidle")] else []
    case ScrollTool => []
    case DoneTool => []
  }

  /**
   * `tool.invoke(args)`: run the tool with its arguments, or fail (the
   * framework's validation error) when a declared parameter is missing or
   * has the wrong type.
   */
  method Invoke(b: BrowserManager, t: Tool, args: map<string, Arg>) returns (r: Option<string>)
    requires b.Valid()
    modifies b
    ensures b.Valid()
    ensures r.Some? <==> ArgsFit(t, args)
    ensures b.lastItems == old(b.lastItems)
    ensures r.None? ==>
              && b.effects == old(b.effects)
              && b.page == old(b.page) && b.browser == old(b.browser) && b.playwright == old(b.playwright)
    ensures r.Some? ==>
              && r.value == ToolReport(t, args, b.lastItems)
              && b.effects == old(b.effects) + ToolEffects(t, args, b.lastItems, old(b.browser), b.headless)
              && b.browser == (old(b.browser) || t == NavigateTool)
    ensures b.playwright == (old(b.playwright) || b.browser)
    ensures (old(b.browser) || t != NavigateTool) ==> b.page == old(b.page)
  {
    if !ArgsFit(t, args) {
      return None;
    }
    var s: string;
    match t {
      case NavigateTool =>
        s := Navigate(b, args["url"].s);
      case ClickElementTool =>
        s := ClickElement(b, args["element_id"].i);
      case TypeTextTool =>
        s := TypeText(b, args["element_id"].i, args["text"].s);
      case ScrollTool =>
        s := Scroll(b);
      case DoneTool =>
        s := Done(args["result"].s);
    }
    r := Some(s);
  }
}
