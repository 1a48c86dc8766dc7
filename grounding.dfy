/**
 * The set-of-marks grounding script (browser/grounding.js), run against a
 * document: it removes earlier markers, numbers the visible interactive
 * candidates 1, 2, 3, ... in document order, appends one marker per number
 * and returns one record per numbered element.
 */
module Grounding {
  import opened Text

  /** The bounding rectangle the browser reports; sizes are whole pixels here. */
  datatype Rect = Rect(x: int, y: int, width: int, height: int)

  /**
   * What the script reads of one candidate element. A property the element
   * does not carry (`value` on a button, `name` on a link) is the empty
   * string, which is falsy in JavaScript just as `undefined` is.
   */
  datatype Element = Element(
    id: string,
    name: string,
    className: string,
    tagName: string,
    innerText: string,
    value: string,
    placeholder: string,
    rect: Rect,
    visibility: string,
    display: string,
    opacity: string)

  /** One entry of the returned `items` array. */
  datatype ElementRecord = ElementRecord(id: nat, tag: string, text: string, selector: string, rect: Rect)

  /**
   * A node of the document, in document order: a marker div the script
   * appended (class `som-marker`, text its number, absolutely placed), or any
   * other node with its class list.
   */
  datatype Node =
    | Marker(text: string, left: int, top: int)
    | PageNode(tag: string, classes: seq<string>)

  /** Whether `document.querySelectorAll('.som-marker')` selects the node. */
  predicate IsSomMarker(n: Node) {
    n.Marker? || "som-marker" in n.classes
  }

  /** `isVisible`: non-empty box, and neither hidden, undisplayed nor fully transparent. */
  predicate IsVisible(e: Element): (v: bool)
    ensures v ==> e.rect.width > 0 && e.rect.height > 0
    ensures e.visibility == "hidden" || e.display == "none" || e.opacity == "0" ==> !v
  {
    && e.rect.width > 0
    && e.rect.height > 0
    && e.visibility != "hidden"
    && e.display != "none"
    && e.opacity != "0"
  }

  /**
   * `getSelector`: an ID selector, else an attribute selector on `name`, else
   * the lower-cased type selector followed by one class selector per
   * space-separated part of the class name (no escaping anywhere).
   */
  function SelectorOf(e: Element): string {
    if e.id != "" then "#" + e.id
    else if e.name != "" then "[name=\"" + e.name + "\"]"
    else
      var path := LowerAscii(e.tagName);
      if e.className != "" then path + "." + Join(Split(e.className, ' '), '.') else path
  }

  /**
   * The three shapes of the selector: `#` and the id when the id is set;
   * else `[name="` and the name and `"]` when the name is set; else the
   * lower-cased tag, followed by more exactly when the class name is set.
   */
  lemma SelectorShape(e: Element)
    ensures var sel := SelectorOf(e);
      && (e.id != "" ==> |sel| == |e.id| + 1 && sel[0] == '#' && sel[1..] == e.id)
      && (e.id == "" && e.name != "" ==>
            && |sel| == |e.name| + 9
            && sel[..7] == "[name=\"" && sel[7..|sel| - 2] == e.name && sel[|sel| - 2..] == "\"]")
      && (e.id == "" && e.name == "" ==>
            && LowerAscii(e.tagName) <= sel
            && (sel == LowerAscii(e.tagName) <==> e.className == ""))
  {
  }

  /** The three selector shapes of W3C Selectors Level 3 that `getSelector` writes. */
  datatype SimpleSelector =
    | IdSelector(id: string)                          // section 6.5: `#id`
    | NameSelector(name: string)                      // section 6.3.1: `[name="v"]`
    | TypeSelector(tag: string, classes: seq<string>) // sections 6.1 and 6.4: `tag.c1.c2`

  /**
   * Reads a selector string back into its shape, as a selector parser does
   * when no identifier needs escaping: `#` starts an ID selector, a
   * `[name="..."]` attribute selector stands alone, and otherwise every `.`
   * starts a class selector after the type selector.
   */
  function ParseSelector(sel: string): SimpleSelector {
    if |sel| > 0 && sel[0] == '#' then IdSelector(sel[1..])
    else if |sel| >= 9 && sel[..7] == "[name=\"" && sel[|sel| - 2..] == "\"]" then NameSelector(sel[7..|sel| - 2])
    else
      var parts := Split(sel, '.');
      TypeSelector(parts[0], parts[1..])
  }

  /** The selector `getSelector` means for `e`: the first rule that applies. */
  function IntendedSelector(e: Element): SimpleSelector {
    if e.id != "" then IdSelector(e.id)
    else if e.name != "" then NameSelector(e.name)
    else TypeSelector(LowerAscii(e.tagName), if e.className == "" then [] else Split(e.className, ' '))
  }

  /**
   * The selector string denotes the first rule that applies: a non-empty id
   * wins, then a non-empty name, then the lower-cased tag with one class per
   * space-separated part of the class name. For the last shape the tag must
   * not begin like the other two shapes and neither tag nor class name may
   * hold a `.`, since nothing is escaped.
   */
  lemma SelectorDenotes(e: Element)
    requires e.id == "" && e.name == "" && |e.tagName| > 0 ==> e.tagName[0] != '#' && e.tagName[0] != '['
    requires e.id == "" && e.name == "" ==> '.' !in e.tagName && '.' !in e.className
    ensures ParseSelector(SelectorOf(e)) == IntendedSelector(e)
  {
    if e.id == "" && e.name != "" {
      var sel := SelectorOf(e);
      assert sel[..7] == "[name=\"";
      assert sel[|sel| - 2..] == "\"]";
      assert sel[7..|sel| - 2] == e.name;
    } else if e.id == "" && e.name == "" {
      var path := LowerAscii(e.tagName);
      assert '.' !in path by {
        forall i | 0 <= i < |path| ensures path[i] != '.' {
          assert e.tagName[i] != '.';
        }
      }
      if e.className == "" {
        SplitOfJoin([path], '.');
        assert Join([path], '.') == path;
      } else {
        var parts := Split(e.className, ' ');
        SplitKeepsAbsent(e.className, ' ', '.');
        JoinCons(path, parts, '.');
        SplitOfJoin([path] + parts, '.');
        assert ([path] + parts)[1..] == parts;
      }
    }
  }

  /** The record's text: `innerText || value || placeholder || ''`. */
  function TextOf(e: Element): (t: string)
    ensures t != "" <==> e.innerText != "" || e.value != "" || e.placeholder != ""
    ensures e.innerText != "" ==> t == e.innerText
    ensures e.innerText == "" && e.value != "" ==> t == e.value
    ensures t == "" || t == e.innerText || t == e.value || t == e.placeholder
  {
    if e.innerText != "" then e.innerText
    else if e.value != "" then e.value
    else if e.placeholder != "" then e.placeholder
    else ""
  }

  /** The record the script pushes for element `e` numbered `id`. */
  function RecordOf(id: nat, e: Element): ElementRecord {
    ElementRecord(id, LowerAscii(e.tagName), TextOf(e), SelectorOf(e), e.rect)
  }

  /**
   * A record keeps the number it was given, the element's box and selector;
   * its tag is the element's tag with no upper-case letter left, and its text
   * is empty exactly when the element has no inner text, value or placeholder.
   */
  lemma RecordFields(id: nat, e: Element)
    ensures var r := RecordOf(id, e);
      && r.id == id && r.rect == e.rect && r.selector == SelectorOf(e)
      && |r.tag| == |e.tagName| && (forall i :: 0 <= i < |r.tag| ==> !('A' <= r.tag[i] <= 'Z'))
      && (r.text != "" <==> e.innerText != "" || e.value != "" || e.placeholder != "")
  {
  }

  /** Ids are exactly 1, 2, ..., n in list order. */
  predicate NumberedFromOne(items: seq<ElementRecord>) {
    forall k :: 0 <= k < |items| ==> items[k].id == k + 1
  }

  /** The records the script returns for the candidates `cands`, built as its loop builds them. */
  function GroundingRecords(cands: seq<Element>): (items: seq<ElementRecord>)
    ensures |items| <= |cands|
    ensures NumberedFromOne(items)
  {
    if cands == [] then []
    else
      var last := cands[|cands| - 1];
      var before := GroundingRecords(cands[..|cands| - 1]);
      if IsVisible(last) then before + [RecordOf(|before| + 1, last)] else before
  }

  /** The number of visible candidates: the reference count the numbering is checked against. */
  function CountVisible(cands: seq<Element>): nat {
    if cands == [] then 0
    else CountVisible(cands[..|cands| - 1]) + (if IsVisible(cands[|cands| - 1]) then 1 else 0)
  }

  /** One record per visible candidate and none for the others. */
  lemma {:induction false} GroundingCount(cands: seq<Element>)
    ensures |GroundingRecords(cands)| == CountVisible(cands)
  {
    if cands != [] {
      GroundingCount(cands[..|cands| - 1]);
    }
  }

  /** A prefix of the candidates gives a prefix of the records. */
  lemma {:induction false} GroundingPrefix(cands: seq<Element>, j: nat)
    requires j <= |cands|
    ensures GroundingRecords(cands[..j]) <= GroundingRecords(cands)
  {
    if j < |cands| {
      var n := |cands| - 1;
      PrefixOfPrefix(cands, j, n);
      GroundingPrefix(cands[..n], j);
      assert cands[..n][..j] == cands[..j];
    } else {
      assert cands[..j] == cands;
    }
  }

  /**
   * The visible candidate at position `j` is numbered one more than the number
   * of visible candidates before it, and its record is built from it.
   */
  lemma {:induction false} GroundingNumbering(cands: seq<Element>, j: nat)
    requires j < |cands| && IsVisible(cands[j])
    ensures CountVisible(cands[..j]) < |GroundingRecords(cands)|
    ensures GroundingRecords(cands)[CountVisible(cands[..j])] == RecordOf(CountVisible(cands[..j]) + 1, cands[j])
  {
    var pre := cands[..j + 1];
    assert pre[..j] == cands[..j];
    GroundingCount(cands[..j]);
    GroundingPrefix(cands, j + 1);
  }

  /** The marker for one record: its id as text, placed at the page position of its box. */
  function MarkerFor(item: ElementRecord, scrollX: int, scrollY: int): Node {
    Marker(NatToString(item.id), scrollX + item.rect.x, scrollY + item.rect.y)
  }

  /** The markers the loop appends for `items`, in order. */
  function MarkersFor(items: seq<ElementRecord>, scrollX: int, scrollY: int): seq<Node> {
    seq(|items|, k requires 0 <= k < |items| => MarkerFor(items[k], scrollX, scrollY))
  }

  lemma MarkersForAppend(items: seq<ElementRecord>, item: ElementRecord, scrollX: int, scrollY: int)
    ensures MarkersFor(items + [item], scrollX, scrollY) == MarkersFor(items, scrollX, scrollY) + [MarkerFor(item, scrollX, scrollY)]
  {
  }

  /** One more candidate adds one record, numbered next, exactly when it is visible. */
  lemma GroundingStep(cands: seq<Element>, i: nat)
    requires i < |cands|
    ensures var before := GroundingRecords(cands[..i]);
      GroundingRecords(cands[..i + 1])
        == if IsVisible(cands[i]) then before + [RecordOf(|before| + 1, cands[i])] else before
  {
    assert cands[..i + 1][..i] == cands[..i];
  }

  /** The document's nodes once every `.som-marker` node is removed. */
  function Unmarked(nodes: seq<Node>): (r: seq<Node>)
    ensures forall n | n in r :: !IsSomMarker(n)
    ensures forall n | n in nodes && !IsSomMarker(n) :: n in r
  {
    if nodes == [] then []
    else
      var last := nodes[|nodes| - 1];
      Unmarked(nodes[..|nodes| - 1]) + (if IsSomMarker(last) then [] else [last])
  }

  /** The `.som-marker` nodes of the document, in document order. */
  function SomMarkers(nodes: seq<Node>): seq<Node> {
    if nodes == [] then []
    else
      var last := nodes[|nodes| - 1];
      SomMarkers(nodes[..|nodes| - 1]) + (if IsSomMarker(last) then [last] else [])
  }

  lemma {:induction false} UnmarkedAppend(a: seq<Node>, b: seq<Node>)
    ensures Unmarked(a + b) == Unmarked(a) + Unmarked(b)
  {
    if b == [] {
      assert a + b == a;
    } else {
      var n := |b| - 1;
      assert (a + b)[..|a + b| - 1] == a + b[..n];
      UnmarkedAppend(a, b[..n]);
    }
  }

  lemma {:induction false} SomMarkersAppend(a: seq<Node>, b: seq<Node>)
    ensures SomMarkers(a + b) == SomMarkers(a) + SomMarkers(b)
  {
    if b == [] {
      assert a + b == a;
    } else {
      var n := |b| - 1;
      assert (a + b)[..|a + b| - 1] == a + b[..n];
      SomMarkersAppend(a, b[..n]);
    }
  }

  /** Removal empties, and selection keeps, a run of nodes that all carry `som-marker`. */
  lemma {:induction false} AllMarked(nodes: seq<Node>)
    requires forall k :: 0 <= k < |nodes| ==> IsSomMarker(nodes[k])
    ensures Unmarked(nodes) == [] && SomMarkers(nodes) == nodes
  {
    if nodes != [] {
      var n := |nodes| - 1;
      AllMarked(nodes[..n]);
      assert nodes[..n] + [nodes[n]] == nodes;
    }
  }

  /** Every appended marker is selected by `.som-marker`. */
  lemma MarkersAreSomMarkers(items: seq<ElementRecord>, scrollX: int, scrollY: int)
    ensures Unmarked(MarkersFor(items, scrollX, scrollY)) == []
    ensures SomMarkers(MarkersFor(items, scrollX, scrollY)) == MarkersFor(items, scrollX, scrollY)
  {
    AllMarked(MarkersFor(items, scrollX, scrollY));
  }

  lemma {:induction false} UnmarkedHasNoMarkers(nodes: seq<Node>)
    ensures SomMarkers(Unmarked(nodes)) == []
    ensures Unmarked(Unmarked(nodes)) == Unmarked(nodes)
  {
    if nodes != [] {
      var n := |nodes| - 1;
      UnmarkedHasNoMarkers(nodes[..n]);
      var last := nodes[n];
      var tail := if IsSomMarker(last) then [] else [last];
      SomMarkersAppend(Unmarked(nodes[..n]), tail);
      UnmarkedAppend(Unmarked(nodes[..n]), tail);
      if !IsSomMarker(last) {
        assert tail[..0] == [];
      }
    }
  }

  /**
   * After a grounding pass the document holds exactly the markers of the
   * returned records: one per record, in record order, labelled with its id.
   */
  lemma MarkersAfterGrounding(nodes: seq<Node>, items: seq<ElementRecord>, scrollX: int, scrollY: int)
    ensures SomMarkers(Unmarked(nodes) + MarkersFor(items, scrollX, scrollY)) == MarkersFor(items, scrollX, scrollY)
  {
    SomMarkersAppend(Unmarked(nodes), MarkersFor(items, scrollX, scrollY));
    UnmarkedHasNoMarkers(nodes);
    MarkersAreSomMarkers(items, scrollX, scrollY);
  }

  /**
   * Two passes in a row leave one marker set, that of the second pass, and
   * the rest of the document as after one pass.
   */
  lemma GroundingTwice(nodes: seq<Node>, first: seq<ElementRecord>, second: seq<ElementRecord>, scrollX: int, scrollY: int)
    ensures Unmarked(Unmarked(nodes) + MarkersFor(first, scrollX, scrollY)) + MarkersFor(second, scrollX, scrollY)
         == Unmarked(nodes) + MarkersFor(second, scrollX, scrollY)
  {
    UnmarkedAppend(Unmarked(nodes), MarkersFor(first, scrollX, scrollY));
    UnmarkedHasNoMarkers(nodes);
    MarkersAreSomMarkers(first, scrollX, scrollY);
    assert Unmarked(nodes) + [] == Unmarked(nodes);
  }

  /** The document the script runs in. */
  class Document {
    /** `document.querySelectorAll(selectors)`: the interactive candidates in document order. */
    var candidates: seq<Element>
    /** All nodes of the document, in document order. */
    var nodes: seq<Node>
    var scrollX: int
    var scrollY: int
    /** `window.somMap`, which the script resets and never fills. */
    var somMap: map<nat, ElementRecord>

    /** A blank page, as a freshly opened browser tab holds. */
    constructor Blank()
      ensures candidates == [] && nodes == [] && scrollX == 0 && scrollY == 0 && somMap == map[]
    {
      candidates := [];
      nodes := [];
      scrollX := 0;
      scrollY := 0;
      somMap := map[];
    }

    /** Step 1 of the script: remove every `.som-marker` node and reset `somMap`. */
    method ResetMarks()
      modifies this
      ensures nodes == Unmarked(old(nodes)) && somMap == map[]
      ensures candidates == old(candidates) && scrollX == old(scrollX) && scrollY == old(scrollY)
    {
      var kept: seq<Node> := [];
      for i := 0 to |nodes|
        invariant kept == Unmarked(nodes[..i])
      {
        assert nodes[..i + 1][..i] == nodes[..i];
        if !IsSomMarker(nodes[i]) {
          kept := kept + [nodes[i]];
        }
      }
      assert nodes[..|nodes|] == nodes;
      nodes := kept;
      somMap := map[];
    }

    /**
     * Step 2 of the script: walk the candidates in order, skip the invisible
     * ones, and give each visible one the next number, a marker and a record.
     */
    method MarkCandidates() returns (items: seq<ElementRecord>)
      modifies this`nodes
      ensures items == GroundingRecords(candidates)
      ensures nodes == old(nodes) + MarkersFor(items, scrollX, scrollY)
    {
      var idCounter: nat := 1;
      items := [];
      for i := 0 to |candidates|
        invariant items == GroundingRecords(candidates[..i])
        invariant idCounter == |items| + 1
        invariant nodes == old(nodes) + MarkersFor(items, scrollX, scrollY)
      {
        var el := candidates[i];
        GroundingStep(candidates, i);
        if IsVisible(el) {
          var rect := el.rect;
          var marker := Marker(NatToString(idCounter), scrollX + rect.x, scrollY + rect.y);
          nodes := nodes + [marker];
          var record := RecordOf(idCounter, el);
          assert marker == MarkerFor(record, scrollX, scrollY);
          MarkersForAppend(items, record, scrollX, scrollY);
          items := items + [record];
          idCounter := idCounter + 1;
        }
      }
      assert candidates[..|candidates|] == candidates;
    }

    /** The script's body: reset the marks, then number, mark and record every visible candidate. */
    method RunGrounding() returns (items: seq<ElementRecord>)
      modifies this
      ensures items == GroundingRecords(candidates)
      ensures nodes == Unmarked(old(nodes)) + MarkersFor(items, scrollX, scrollY)
      ensures candidates == old(candidates) && scrollX == old(scrollX) && scrollY == old(scrollY)
      ensures somMap == map[]
    {
      ResetMarks();
      items := MarkCandidates();
    }
  }
}
