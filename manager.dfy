/**
 * The browser session (browser/manager.py): the browser handles, the items
 * of the last capture, and id-based interaction against that cache. Every
 * call into the browser is recorded, in order, in `effects`.
 */
module Manager {
  import opened Wrappers
  import opened Text
  import opened Grounding

  /** A call the session makes into the browser. */
  datatype Effect =
    | PlaywrightStart
    | LaunchChromium(headless: bool)
    | NewPage
    | SetViewportSize(width: int, height: int)
    | BrowserClose
    | PlaywrightStop
    | Goto(url: string)
    | Click(selector: string)
    | Fill(selector: string, value: Option<string>)
    | Press(selector: string, key: string)
    | WaitForLoadState(state: string)
      /** `page.evaluate` of the grounding script; its effect on the page is `Document.RunGrounding`. */
    | EvaluateGrounding
      /** A viewport screenshot, with the texts of the markers on the page when the screenshot is taken. */
    | Screenshot(fullPage: bool, markerTexts: seq<string>)

  /** The exceptions the session raises itself. */
  datatype Fault =
    | NoItems                 // `interact` before any capture
    | ElementNotFound(id: int) // `interact` with an id the last capture did not return
    | NoPage(attribute: string) // a page call before `start`, Python's AttributeError on None

  /** `str(e)` of each fault. */
  function FaultMessage(f: Fault): (m: string)
    ensures |m| > 0 && (m[0] == '\'' <==> f.NoPage?)
    ensures f.ElementNotFound? ==>
              && |m| == |IntToString(f.id)| + 27
              && m[..16] == "Element with ID " && m[16..|m| - 11] == IntToString(f.id) && m[|m| - 11..] == " not found."
  {
    match f
    case NoItems => "No items found. Capture state first."
    case ElementNotFound(id) => "Element with ID " + IntToString(id) + " not found."
    case NoPage(attribute) => "'NoneType' object has no attribute '" + attribute + "'"
  }

  /** Different faults raise different messages, so the message tells which fault occurred. */
  lemma FaultMessageInjective(f: Fault, g: Fault)
    requires FaultMessage(f) == FaultMessage(g)
    ensures f == g
  {
    if f.ElementNotFound? && g.ElementNotFound? {
      IntToStringInjective(f.id, g.id);
    } else if f.NoPage? && g.NoPage? {
      var p := "'NoneType' object has no attribute '";
      var m := FaultMessage(f);
      assert m == p + f.attribute + "'" == p + g.attribute + "'";
      assert f.attribute == m[|p|..|m| - 1] == g.attribute;
    } else {
      assert FaultMessage(f)[0] == FaultMessage(g)[0];
    }
  }

  /** The calls `start` makes: start playwright, launch Chromium, open a page, size the viewport. */
  function StartEffects(headless: bool): seq<Effect> {
    [PlaywrightStart, LaunchChromium(headless), NewPage, SetViewportSize(1280, 720)]
  }

  datatype CaptureResult = CaptureResult(screenshot: string, items: seq<ElementRecord>)

  /** `next((item for item in items if item['id'] == id), None)`, as a position. */
  function FirstWithId(items: seq<ElementRecord>, id: int): (k: Option<nat>)
    ensures k.Some? ==> k.value < |items| && items[k.value].id == id
    ensures k.Some? ==> forall j :: 0 <= j < k.value ==> items[j].id != id
    ensures k.None? <==> forall j :: 0 <= j < |items| ==> items[j].id != id
  {
    if items == [] then None
    else if items[0].id == id then Some(0)
    else match FirstWithId(items[1..], id)
      case None => None
      case Some(k) => Some(k + 1)
  }

  /** How `interact` resolves an id against the cache, or the fault it raises. */
  function Resolve(cache: Option<seq<ElementRecord>>, id: int): (r: Result<ElementRecord, Fault>)
    ensures cache.None? ==> r == Err(NoItems)
    ensures cache.Some? && r.Ok? ==> r.value in cache.value && r.value.id == id
    ensures cache.Some? && r.Err? ==>
              && r.error == ElementNotFound(id)
              && forall k :: 0 <= k < |cache.value| ==> cache.value[k].id != id
  {
    match cache
    case None => Err(NoItems)
    case Some(items) =>
      match FirstWithId(items, id)
      case None => Err(ElementNotFound(id))
      case Some(k) => Ok(items[k])
  }

  /**
   * Against the records of a capture, an id resolves exactly when it is one
   * of 1..n, and then to the record at position id - 1; any other id, 0
   * included, is not found.
   */
  lemma ResolveCaptured(items: seq<ElementRecord>, id: int)
    requires NumberedFromOne(items)
    ensures Resolve(Some(items), id).Ok? <==> 1 <= id <= |items|
    ensures 1 <= id <= |items| ==> Resolve(Some(items), id) == Ok(items[id - 1])
    ensures !(1 <= id <= |items|) ==> Resolve(Some(items), id) == Err(ElementNotFound(id))
  {
    if 1 <= id <= |items| {
      assert items[id - 1].id == id;
    }
  }

  /**
   * The id a capture draws on a visible candidate resolves, against that
   * capture's records, to the record built from that same candidate, so the
   * action lands on the selector computed for it.
   */
  lemma ResolveNumberedCandidate(cands: seq<Element>, j: nat)
    requires j < |cands| && IsVisible(cands[j])
    ensures var id := CountVisible(cands[..j]) + 1;
      Resolve(Some(GroundingRecords(cands)), id) == Ok(RecordOf(id, cands[j]))
  {
    var c, items := CountVisible(cands[..j]), GroundingRecords(cands);
    GroundingNumbering(cands, j);
    ResolveCaptured(items, c + 1);
  }

  /** The element action `interact` performs for an action kind; other kinds perform none. */
  function ActionCalls(kind: string, selector: string, value: Option<string>): (calls: seq<Effect>)
    ensures |calls| <= 1
    ensures calls != [] <==> kind == "click" || kind == "type" || kind == "submit"
    ensures forall c | c in calls :: c == Click(selector) || c == Fill(selector, value) || c == Press(selector, "Enter")
  {
    if kind == "click" then [Click(selector)]
    else if kind == "type" then [Fill(selector, value)]
    else if kind == "submit" then [Press(selector, "Enter")]
    else []
  }

  /** The marker texts of the markers among `nodes`, in document order. */
  function MarkerTexts(nodes: seq<Node>): seq<string> {
    seq(|SomMarkers(nodes)|, k requires 0 <= k < |SomMarkers(nodes)| =>
      var m := SomMarkers(nodes)[k]; if m.Marker? then m.text else "")
  }

  /** The ids of the records, written as the markers write them. */
  function IdTexts(items: seq<ElementRecord>): seq<string> {
    seq(|items|, k requires 0 <= k < |items| => NatToString(items[k].id))
  }

  class BrowserManager {
    const headless: bool
    var playwright: bool
    var browser: bool
    var page: Document?
    /** `last_items`; None while the attribute does not exist yet. */
    var lastItems: Option<seq<ElementRecord>>
    var effects: seq<Effect>

    ghost predicate Valid()
      reads this
    {
      && (browser <==> page != null)
      && (browser ==> playwright)
      && (lastItems.Some? ==> page != null && NumberedFromOne(lastItems.value))
    }

    constructor (headless: bool := false)
      ensures Valid()
      ensures this.headless == headless
      ensures !playwright && !browser && page == null && lastItems == None && effects == []
    {
      this.headless := headless;
      playwright := false;
      browser := false;
      page := null;
      lastItems := None;
      effects := [];
    }

    /** Start playwright, launch Chromium, open a page and size its viewport. */
    method Start()
      requires Valid()
      modifies this
      ensures Valid()
      ensures playwright && browser && page != null && fresh(page)
      ensures page.candidates == [] && page.nodes == []
      ensures lastItems == old(lastItems)
      ensures effects == old(effects) + StartEffects(headless)
    {
      effects := effects + [PlaywrightStart];
      playwright := true;
      effects := effects + [LaunchChromium(headless)];
      browser := true;
      effects := effects + [NewPage];
      page := new Document.Blank();
      effects := effects + [SetViewportSize(1280, 720)];
    }

    /** Close the browser if one was launched and stop playwright if it was started; the handles stay set. */
    method Stop()
      requires Valid()
      modifies this`effects
      ensures Valid()
      ensures effects == old(effects)
                         + (if browser then [BrowserClose] else [])
                         + (if playwright then [PlaywrightStop] else [])
    {
      if browser {
        effects := effects + [BrowserClose];
      }
      if playwright {
        effects := effects + [PlaywrightStop];
      }
    }

    /** Go to `url` and wait for the network to go idle. */
    method Navigate(url: string) returns (r: Result<(), Fault>)
      requires Valid()
      modifies this`effects
      ensures Valid()
      ensures r.Ok? <==> page != null
      ensures r.Err? ==> r.error == NoPage("goto") && effects == old(effects)
      ensures r.Ok? ==> effects == old(effects) + [Goto(url), WaitForLoadState("networkidle")]
    {
      if page == null {
        return Err(NoPage("goto"));
      }
      effects := effects + [Goto(url), WaitForLoadState("networkidle")];
      r := Ok(());
    }

    /**
     * Act on the element the last capture numbered `id`: fail without any
     * browser call when there is no capture yet or the id is not in it;
     * otherwise perform the action the kind names, if any, and wait for the
     * network to go idle. The cache is left as it is.
     */
    method Interact(kind: string, id: int, value: Option<string> := None) returns (r: Result<(), Fault>)
      requires Valid()
      modifies this`effects
      ensures Valid()
      ensures r.Err? <==> Resolve(lastItems, id).Err?
      ensures r.Err? ==> r.error == Resolve(lastItems, id).error && effects == old(effects)
      ensures r.Ok? ==> effects == old(effects)
                                 + ActionCalls(kind, Resolve(lastItems, id).value.selector, value)
                                 + [WaitForLoadState("networkidle")]
    {
      if lastItems.None? {
        return Err(NoItems);
      }
      var k := FirstWithId(lastItems.value, id);
      if k.None? {
        return Err(ElementNotFound(id));
      }
      var target := lastItems.value[k.value];
      var selector := target.selector;
      if kind == "click" {
        effects := effects + [Click(selector)];
      } else if kind == "type" {
        effects := effects + [Fill(selector, value)];
      } else if kind == "submit" {
        effects := effects + [Press(selector, "Enter")];
      }
      effects := effects + [WaitForLoadState("networkidle")];
      r := Ok(());
    }

    /**
     * Run the grounding script on the page, replace the cache with exactly
     * its items, and take a viewport screenshot. When it is taken, the page
     * carries one marker per item, labelled with its id; which of them fall
     * inside the viewport is not modelled. `shot` is the encoded image the
     * browser hands back.
     */
    method CaptureState(shot: string) returns (r: Result<CaptureResult, Fault>)
      requires Valid()
      modifies this`lastItems, this`effects, page
      ensures Valid()
      ensures old(page) == null ==> r == Err(NoPage("evaluate")) && lastItems == old(lastItems) && effects == old(effects)
      ensures old(page) != null ==>
        && r == Ok(CaptureResult(shot, GroundingRecords(old(page.candidates))))
        && lastItems == Some(r.value.items)
        && page.nodes == Unmarked(old(page.nodes)) + MarkersFor(r.value.items, page.scrollX, page.scrollY)
        && page.candidates == old(page.candidates)
        && page.scrollX == old(page.scrollX) && page.scrollY == old(page.scrollY)
        && effects == old(effects) + [EvaluateGrounding, Screenshot(false, IdTexts(r.value.items))]
    {
      if page == null {
        return Err(NoPage("evaluate"));
      }
      effects := effects + [EvaluateGrounding];
      var items := page.RunGrounding();
      lastItems := Some(items);
      MarkerTextsAfterGrounding(old(page.nodes), items, page.scrollX, page.scrollY);
      effects := effects + [Screenshot(false, MarkerTexts(page.nodes))];
      r := Ok(CaptureResult(shot, items));
    }
  }

  /** The markers on the page right after a grounding pass read as the ids of its records. */
  lemma MarkerTextsAfterGrounding(nodes: seq<Node>, items: seq<ElementRecord>, scrollX: int, scrollY: int)
    ensures MarkerTexts(Unmarked(nodes) + MarkersFor(items, scrollX, scrollY)) == IdTexts(items)
  {
    MarkersAfterGrounding(nodes, items, scrollX, scrollY);
  }
}
