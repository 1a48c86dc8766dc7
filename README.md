# Set-of-marks grounding and the id-based browser session, in Dafny

This project models the deterministic core of a browsing agent. The agent looks at a web page, numbers its interactive elements and lets a model choose one by number. The core has four parts:

- **Grounding script** (`Grounding`). It removes earlier `.som-marker` nodes and walks the interactive candidates in document order. It keeps the visible ones and numbers them 1, 2, 3, …. For each, it appends a marker showing the number and returns a record: lower-cased tag, text, selector and rectangle.
- **Browser session** (`Manager.BrowserManager`). It holds the browser handles and `last_items`, which every capture replaces wholesale. `interact` resolves an id against that cache and then dispatches on the action kind. Every call into the browser is appended to an `effects` trace. The run of the grounding script is traced as `EvaluateGrounding`, and what it does to the page is `Document.RunGrounding`.
- **Tool wrappers** (`Tools`). They turn every failure of `interact` into a result string, start the browser lazily on `navigate`, and list the five registered tools.
- **Agent loop** (`Agent`). It holds the provider check, the end-or-continue routing, the element listing given to the model, and the tool node that runs the model's tool calls.

Modules: `Wrappers` (Option, Result), `Text` (decimal rendering, split and join on one character, ASCII lower-casing), `Grounding`, `Manager`, `Tools`, `Agent`. One file per module.

Some behaviours of the code that a reader may not expect; the model keeps them as written:
- Markers are never removed after the screenshot (browser/manager.py:70-85). They stay on the page until the next grounding pass removes them or the page navigates away. When the capture's screenshot is taken, the markers on the page are exactly those of the returned items.
- Ids start at 1 (browser/grounding.js:30), so no capture numbers id 0.
- An id is checked only against the cached records (browser/manager.py:46-51). Nothing re-checks the selector against the live page before acting, as the NOTE at browser/manager.py:43 says.
- `interact` takes `value=None` (browser/manager.py:34), and `type` passes that value to `fill` as is (browser/manager.py:63).
- `scroll` is documented as "Scrolls the page down." (core/tools.py:36), but it calls `interact("scroll", 0)` with the comment "ID 0 is ignored for scroll" (core/tools.py:38). `interact` looks id 0 up like any other id, and no capture numbers it, so `scroll` always reports an error and performs no browser call.
- `stop` does not clear the handles (browser/manager.py:24-28), so `navigate` after `stop` does not start a new browser.
- The session and the tool node raise exceptions. Here those are `Result` values: `Fault` for the session, `NodeFault` for the tool node.

## Model

| member | source | states |
|---|---|---|
| `Grounding.Document.RunGrounding` | browser/grounding.js:10-99 | Returns exactly `GroundingRecords(candidates)`. Every earlier `.som-marker` node is removed, other nodes keep their order, and one marker per returned record is appended in record order. Candidates and scroll offsets are unchanged, and `somMap` is reset to empty. |
| `Grounding.Document.ResetMarks` | browser/grounding.js:11-13 | Every `.som-marker` node is removed, the other nodes keep their order, and `somMap` is reset to empty. Candidates and scroll offsets are unchanged. |
| `Grounding.Document.MarkCandidates` | browser/grounding.js:30-96 | Returns exactly `GroundingRecords(candidates)` and appends one marker per returned record, in record order, after the existing nodes. |
| `Grounding.GroundingStep` | browser/grounding.js:57-96 | One more candidate adds one record numbered after the earlier ones when it is visible, and nothing when it is hidden. |
| `Grounding.AllMarked` | browser/grounding.js:12 | On a list made only of `.som-marker` nodes, the removal leaves nothing and every node counts as a marker. |
| `Grounding.GroundingRecords` | browser/grounding.js:29-30 | The records number the candidates 1..n consecutively in list order, and there are never more records than candidates. |
| `Grounding.GroundingCount` | browser/grounding.js:57-58 | There is one record per visible candidate: the number of records equals the number of candidates passing `isVisible`. |
| `Grounding.GroundingNumbering` | browser/grounding.js:82-95 | The visible candidate at position j gets id 1 + (number of visible candidates before j). Its record is built from that candidate: lower-cased tag, text fallback, selector, rectangle. Hidden candidates consume no id. |
| `Grounding.GroundingPrefix` | browser/grounding.js:57-96 | Processing a prefix of the candidates yields a prefix of the records, so earlier ids never change as later candidates are added. |
| `Grounding.SelectorDenotes` | browser/grounding.js:47-53 | Reading the selector string back gives the first rule that applies. A non-empty id gives an ID selector (`#id`). Otherwise a non-empty name gives an attribute selector (`[name="…"]`). Otherwise the selector is the lower-cased tag with one class per space-separated part of the class name. The last case holds when the tag and class name contain no `.`, because nothing is escaped. |
| `Grounding.IsVisible` | browser/grounding.js:34-44 | A visible element has a box of positive width and height. An element that is hidden, not displayed or fully transparent is never visible. |
| `Grounding.SelectorShape` | browser/grounding.js:47-54 | A non-empty id gives `#` followed by the id. Otherwise a non-empty name gives `[name="…"]` around the name. Otherwise the selector begins with the lower-cased tag and is exactly that tag when the class name is empty. |
| `Grounding.RecordFields` | browser/grounding.js:82-93 | The record of an element keeps the number it was given, the element's box and its selector. Its tag is the element's tag with the same length and no upper-case letter. Its text is empty exactly when the element has no inner text, value or placeholder. |
| `Grounding.TextOf` | browser/grounding.js:85 | The text is `innerText` when that is non-empty, else `value` when non-empty, else `placeholder`, else empty. It is empty exactly when all three are empty. |
| `Grounding.MarkersAfterGrounding` | browser/grounding.js:63-83 | After a pass, the `.som-marker` nodes of the page are exactly one marker per record, in record order, each showing its record's id. |
| `Grounding.GroundingTwice` | browser/grounding.js:12 | Two passes in a row leave one marker set (the second), and the other nodes are as after one pass. |
| `Grounding.UnmarkedHasNoMarkers` | browser/grounding.js:12 | After removal no `.som-marker` node remains, and removing again changes nothing. |
| `Grounding.Unmarked` | browser/grounding.js:12 | The removal keeps no `.som-marker` node and keeps every other node. |
| `Text.JoinOfSplit` | browser/grounding.js:52 | `className.split(' ').join('.')` replaces each space by `.` and changes nothing else. |
| `Text.SplitOfJoin` | core/agent.py:74-77 | Joining parts that do not contain the separator and splitting again gives the parts back. |
| `Text.NatToStringRoundTrip` | browser/grounding.js:65 | The decimal text written for an id reads back as that id. |
| `Text.IntToStringInjective` | core/tools.py:21-23 | Distinct ids give distinct texts in the tool reports and error messages. |
| `Manager.BrowserManager.constructor` | browser/manager.py:6-10 | A new session has no playwright, no browser, no page, no cache and no browser calls. It keeps the headless flag it is given, which defaults to false. |
| `Manager.BrowserManager.Start` | browser/manager.py:17-22 | Start records these calls in order: playwright start, Chromium launch with the session's headless flag, a new page, a 1280×720 viewport. The page is fresh and blank, and the cache is untouched. |
| `Manager.BrowserManager.Stop` | browser/manager.py:24-28 | The browser is closed only if one was launched, and playwright is stopped only if it was started. Nothing else changes. |
| `Manager.BrowserManager.Navigate` | browser/manager.py:30-32 | With a page, navigate goes to the url and waits for network idle. Without one, it fails like Python's AttributeError and makes no call. |
| `Manager.BrowserManager.Interact` | browser/manager.py:34-68 | Before any capture it fails with "No items found…". For an id that is not cached it fails with "Element with ID … not found.". In both cases it makes no browser call. Otherwise it acts on the selector of the first cached record with that id: click, fill with the value (none by default), or press Enter, and no element action for any other kind. It then waits for network idle. Only `effects` may change, so the cache is never modified. |
| `Manager.BrowserManager.CaptureState` | browser/manager.py:70-85 | The cache becomes exactly the fresh records, with no merging, and the same records are returned with the screenshot. The calls are the script run, then a viewport screenshot taken while the page carries one marker per record, labelled with its id. The page keeps its candidates and scroll offsets, so the markers sit at those offsets. Without a page, capture fails and changes nothing. |
| `Manager.Resolve` | browser/manager.py:46-51 | Without a cache the lookup fails with `NoItems`. With one, it succeeds exactly when some cached record has the id, and then yields a cached record with that id. Otherwise it fails with `ElementNotFound` for that id. |
| `Manager.ActionCalls` | browser/manager.py:59-68 | At most one page action is made. There is one exactly when the kind is click, type or submit, and it is a click, a fill or an Enter press on the given selector. |
| `Manager.FaultMessage` | browser/manager.py:47-51 | The message starts with a quote exactly for a missing page. For a missing id it is "Element with ID ", the id's decimal text, then " not found.". |
| `Manager.FaultMessageInjective` | browser/manager.py:47-51 | Different faults give different messages, so a message names its fault and its id. |
| `Manager.FirstWithId` | browser/manager.py:49 | Returns the position of the first cached record whose id matches, or none exactly when no record matches. |
| `Manager.ResolveCaptured` | browser/manager.py:49-51 | Against a capture's records, an id resolves exactly when it is in 1..n, and then to the record at position id - 1. Any other id, including 0, is "not found". |
| `Manager.ResolveNumberedCandidate` | browser/grounding.js:82-86 | The id drawn on a visible candidate resolves, against that capture, to the record built from the same candidate. |
| `Manager.MarkerTextsAfterGrounding` | browser/manager.py:75-79 | The markers on the page when the screenshot is taken read as the ids of the returned records, in order. |
| `Tools.Navigate` | core/tools.py:9-14 | Starts the browser only when none was started, always navigates, and returns "Navigated to <url>". |
| `Tools.ClickElement` | core/tools.py:17-23 | Never fails. When the id resolves it clicks and returns "Clicked element #<id>". Otherwise it returns "Error clicking element #<id>: <message>" and makes no browser call. |
| `Tools.TypeText` | core/tools.py:26-32 | Never fails. When the id resolves it fills the text and returns "Typed '<text>' into element #<id>". Otherwise it returns "Error typing into element #<id>: <message>" and makes no browser call. |
| `Tools.Scroll` | core/tools.py:35-41 | Always returns "Error scrolling: …", because id 0 is never numbered, and makes no browser call. |
| `Tools.Done` | core/tools.py:44-46 | The final answer is the argument itself. |
| `Tools.GetTools` | core/tools.py:48-49 | The registered tools are named navigate, click_element, type_text, scroll and done, in that order. |
| `Tools.FindTool` | core/agent.py:141 | Returns the first tool with the requested name, or none exactly when no tool has that name. |
| `Tools.FindsOwnTool` | core/tools.py:48-49 | Each of the five registered tools is found by its own name. |
| `Tools.FindRegisteredTool` | core/tools.py:48-49 | A name finds a tool exactly when it is one of navigate, click_element, type_text, scroll, done. |
| `Tools.Invoke` | core/tools.py:9-46 | Runs the tool exactly when its declared parameters are present with their types. It returns the tool's exact report against the cache and makes that tool's browser calls: a click or fill on the resolved selector, or none when the id does not resolve. Only `navigate` starts the browser, and only when none is. Playwright ends up started exactly when it already was or a browser is now up. The page handle changes only when `navigate` starts the browser. The cache never changes. When the arguments do not fit, nothing changes. |
| `Agent.ProviderModel` | core/agent.py:11-21 | The provider defaults to "openai". Only "openai" and "anthropic" are accepted, each with temperature 0. Any other provider gives "Invalid model provider". |
| `Agent.CallsDone` | core/agent.py:54 | True exactly when some tool call is named `done`. |
| `Agent.ShouldContinue` | core/agent.py:46-57 | Returns Continue exactly when the last message has tool calls and none of them is `done`. Otherwise it returns End, including when `done` appears alongside other calls. |
| `Agent.ItemText` | core/agent.py:74-77 | The listing is empty exactly when there are no items, and otherwise it begins with the first item's line. |
| `Agent.ItemTextLines` | core/agent.py:74-77 | When no tag or text contains a newline, the listing splits into exactly one line per item giving its id, tag and text, in item order. An empty item list gives an empty listing. |
| `Agent.CallModel` | core/agent.py:66-77 | When a page is open, this captures the same page, replacing the cache, and lists exactly the captured records. The calls made are the script run and the screenshot, taken while the page's markers read as the records' ids. The page's markers are replaced by those of the records, and its candidates and scroll offsets are kept. Otherwise it captures and lists nothing, and makes no call. Only the cache, the call log and the page itself may change; the browser, playwright and page handles are untouched. |
| `Agent.FirstMisfit` | core/agent.py:135-141 | Every call before the returned position names a registered tool with fitting arguments. When the position is inside the list, the call there does not. |
| `Agent.RunCall` | core/agent.py:136-145 | Succeeds exactly when the call fits. It then gives a tool message with the call's id and that tool's exact report. Otherwise it reports an unknown tool or bad arguments for that call and makes no browser call. Only a fitting `navigate` that finds no browser starts one; it starts playwright with it, and only then does the page handle change. The cache never changes. |
| `Agent.NodeStep` | core/agent.py:135-145 | From any position, a call that fits adds its own browser calls, made with the current browser state, before the rest. A call that does not fit ends the node with no further call. |
| `Agent.CallLaunches` | core/tools.py:9-14 | A call launches Chromium exactly once when it is a `navigate` that finds no browser, and not at all otherwise. |
| `Agent.NodeLaunchesOnce` | core/tools.py:11-12 | Over a whole tool node, Chromium is launched once if the node found no browser and left one started, and never otherwise. It is never launched twice. |
| `Agent.ToolNode` | core/agent.py:131-148 | When every call names a registered tool with fitting arguments, it returns one tool message per call, in call order, each carrying that call's id and that tool's exact report against the cache the node began with. Otherwise it stops at the first call that does not fit: an unknown name (StopIteration) or bad arguments. The cache is unchanged. The browser calls are those of the calls up to the first misfit, in order, each made with the browser as the calls before it left it. Playwright ends up started exactly when it already was or a browser is now up. When a browser was already running, the page handle is the same at the end, so no call replaces a running browser. |

## Left out

- Playwright, Chromium and the page's reaction to actions are not modelled: navigating, clicking and filling do not change the modelled document. Browser calls are only recorded in `effects`. Failures raised inside Playwright (a selector that matches nothing, a timeout) are not modelled.
- Screenshot bytes and base64 encoding are outside the model. The encoded image is a parameter of `CaptureState`.
- The viewport is not modelled. `isVisible` (browser/grounding.js:34-44) has no viewport test, markers are placed in page coordinates (browser/grounding.js:67-68), and the screenshot covers only the 1280×720 viewport (browser/manager.py:22, browser/manager.py:79). So the listing and the markers can name ids the image does not show, for example a button at y=2000 while the scroll offset is 0. `Screenshot` records the texts of the markers on the page, not the ones the image pictures.
- Loading `grounding.js` from disk in the constructor is not modelled. `RunGrounding` is that script.
- The matching of the interactive selector list (`button`, `a`, `input`, …, `[role="menuitem"]`) is not modelled. The document holds its result, `candidates`, in document order. Page nodes that carry class `som-marker` are removed from `nodes`, but such a node is assumed not to be a candidate.
- `getBoundingClientRect` and `getComputedStyle` are not modelled: sizes are integers and style values are given strings. Marker placement uses `rect.x` and `rect.y`, which equal `left` and `top` for the visible, positive-size boxes that get markers. Marker styling is not modelled.
- `Text.LowerAscii` lower-cases only A–Z. JavaScript's full Unicode `toLowerCase` is not modelled. HTML tag names are ASCII.
- `Grounding.SelectorDenotes` does not check that ids, names and classes are valid CSS identifiers. For example, an id starting with a digit does not form a valid ID selector.
- `Grounding.TextOf`: a missing `value` or `placeholder` is the empty string. JavaScript's falsy `undefined` behaves the same.
- The `print` in `interact` and `call_model` is left out.
- `Agent.CallModel` models only the capture and listing. The prompt text, the image message, the `debug_messages.txt` write and the model call are left out.
- LangGraph graph building and compilation in the `Agent` constructor are left out. `ProviderModel` models the provider check.
- `Tools.Invoke`: the framework's argument validation is modelled as "each declared parameter is present with its type". Type coercion, such as the string "5" becoming an int, is not modelled.
- `Agent.ShouldContinue` and `Agent.ToolNode` require the last message to be the model's answer. The graph only calls them then, and for any other message Python raises AttributeError.
- `Grounding.SelectorOf`: `className` is always a string here. On an SVG element, `el.className` is an `SVGAnimatedString` object, which is truthy. So for a visible SVG candidate with no id, such as an SVG `<a>` or an `<svg>` with `onclick` or a button role, `el.className.split` throws a TypeError (browser/grounding.js:52). The script then fails after its markers so far have been appended, and `capture_state` raises before `last_items` is set. The model has no SVG candidates, so it never takes that path.
- `Grounding.Document.ResetMarks`: `nodes` is a flat list. `el.remove()` also removes the descendants of a `.som-marker` element, but the model removes only that node. This matches the script for the childless markers it creates itself, but not for a page-owned `.som-marker` element that has children.
- `core/planner.py`, `core/knowledge.py`, `core/state.py`, `main.py` and `scripts/*.py` are not part of this model. They are LLM calls, file I/O, a type declaration and drivers.
