/**
 * The popover group registry and the decision rules of the popover panel
 * and overlay. Focus movement is done by `focusIn`, which is not part of
 * this model: it is an oracle that, given a container or a list of
 * elements and a direction, reports a `FocusResult`. The handlers are
 * functions that return the calls they make, in order (`Effect`).
 */
module Popover {
  import opened Base
  import opened JsValues
  import Html
  import Lists
  import Keys
  import OpenClosed
  import Helper

  datatype PopoverStates = Open | Closed

  // ------------------------------------------------------------- focusing

  datatype FocusResult = Success | Error | Overflow | Underflow
  datatype Focus = First | Previous | Next | Last | WrapAround | NoScroll

  /** What `focusIn` is asked to search: a container, a list of elements, or `null`. */
  datatype FocusTarget = Container(el: Html.Element) | Elements(list: seq<Html.Element>) | NullContainer

  type FocusOracle = (FocusTarget, Focus) -> FocusResult

  /** A call a handler makes on its collaborators. */
  datatype Effect =
    | PreventDefault                              // `event.preventDefault()`
    | FocusIn(target: FocusTarget, focus: Focus)  // `focusIn(target, focus)`
    | FocusElement(el: Html.Element)              // `el.focus()`
    | ClosePopover                                // `api.closePopover()`

  datatype KeyEvent = KeyEvent(key: string, shiftKey: bool)

  /**
   * What a panel reads from its popover: the state, and the button and
   * panel elements once they are mounted (`dom(api.button)`, `dom(api.panel)`).
   */
  datatype PanelApi = PanelApi(state: PopoverStates, button: Option<Html.Element>, panel: Option<Html.Element>)

  // -------------------------------------------------------------- visible

  /**
   * The `visible` computed of the overlay and of the panel: the enclosing
   * open/closed state when there is one, and the popover's own state otherwise.
   */
  function Visible(openClosed: Option<OpenClosed.State>, state: PopoverStates): (r: bool)
    ensures openClosed.Some? ==> (r <==> openClosed.value == OpenClosed.Open)
    ensures openClosed.None? ==> (r <==> state == Open)
  {
    match openClosed
    case Some(s) => s == OpenClosed.Open
    case None => state == Open
  }

  /** The overlay and the panel both render with the RenderStrategy and Static features. */
  const PanelFeatures: Helper.Features := Helper.FeatureRenderStrategy | Helper.FeatureStatic

  /** `{ ...this.$props, ...propsWeControl }` of the panel. */
  function PanelProps(tag: Value, isStatic: bool, unmount: bool, focus: bool, id: string, onKeydown: Value): (r: map<string, Value>)
    ensures r.Keys == {"as", "static", "unmount", "focus", "ref", "id", "onKeydown"}
    ensures r["as"] == tag && r["static"] == Bool(isStatic) && r["unmount"] == Bool(unmount) && r["id"] == Str(id)
  {
    map["as" := tag, "static" := Bool(isStatic), "unmount" := Bool(unmount), "focus" := Bool(focus),
        "ref" := Str("el"), "id" := Str(id), "onKeydown" := onKeydown]
  }

  /** With its default `static = false`, `unmount = true`, a panel that is not visible renders nothing. */
  lemma ClosedPanelUnmounts(openClosed: Option<OpenClosed.State>, state: PopoverStates, tag: Value, focus: bool,
                            id: string, onKeydown: Value, attrs: map<string, Value>, children: Option<seq<Helper.Node>>)
    requires !Visible(openClosed, state)
    ensures Helper.Render(Helper.RenderInput(PanelProps(tag, false, true, focus, id, onKeydown), attrs, children, "PopoverPanel"),
                          Visible(openClosed, state), PanelFeatures) == Ok(Helper.Nothing)
  {
    var main := Helper.RenderInput(PanelProps(tag, false, true, focus, id, onKeydown), attrs, children, "PopoverPanel");
    assert Get(main.props, "static") == Bool(false) && Get(main.props, "unmount") == Bool(true);
    Helper.RenderUnmounted(main, PanelFeatures);
  }

  /** A panel with `unmount = false` that is not visible stays rendered, hidden. */
  lemma ClosedPanelHides(openClosed: Option<OpenClosed.State>, state: PopoverStates, tag: Value, focus: bool,
                         id: string, onKeydown: Value, attrs: map<string, Value>, children: Option<seq<Helper.Node>>)
    requires !Visible(openClosed, state) && tag != Helper.TemplateTag
    ensures var main := Helper.RenderInput(PanelProps(tag, false, false, focus, id, onKeydown), attrs, children, "PopoverPanel");
      Helper.Render(main, Visible(openClosed, state), PanelFeatures) == Helper.RenderMain(Helper.HiddenInput(main))
    ensures var main := Helper.RenderInput(PanelProps(tag, false, false, focus, id, onKeydown), attrs, children, "PopoverPanel");
      Helper.RenderMain(Helper.HiddenInput(main)) ==
        Ok(Helper.Single(Helper.Created(tag, Helper.PassThrough(Helper.HiddenInput(main).props), children)))
  {
    var main := Helper.RenderInput(PanelProps(tag, false, false, focus, id, onKeydown), attrs, children, "PopoverPanel");
    assert Get(main.props, "static") == Bool(false) && Get(main.props, "unmount") == Bool(false);
    Helper.RenderHidden(main, PanelFeatures);
    Helper.HiddenElement(main);
  }

  /** A `static` panel renders whatever the state. */
  lemma StaticPanelRenders(visible: bool, tag: Value, unmount: bool, focus: bool, id: string, onKeydown: Value,
                           attrs: map<string, Value>, children: Option<seq<Helper.Node>>)
    ensures var main := Helper.RenderInput(PanelProps(tag, true, unmount, focus, id, onKeydown), attrs, children, "PopoverPanel");
      Helper.Render(main, visible, PanelFeatures) == Helper.RenderMain(main)
  {
    var main := Helper.RenderInput(PanelProps(tag, true, unmount, focus, id, onKeydown), attrs, children, "PopoverPanel");
    assert Get(main.props, "static") == Bool(true);
    if !visible {
      Helper.RenderStatic(main, PanelFeatures);
    }
  }

  // ------------------------------------------------------- Tab / Shift+Tab

  /** The elements of `s` that lie outside the panel, in their order. */
  function OutsidePanel(s: seq<Html.Element>, panel: Html.Element, doc: Html.Document): (r: seq<Html.Element>)
    ensures |r| <= |s|
  {
    if |s| == 0 then []
    else (if doc.contains(panel, s[0]) then [] else [s[0]]) + OutsidePanel(s[1..], panel, doc)
  }

  /** An element is kept exactly when it is listed and lies outside the panel. */
  lemma {:induction false} OutsidePanelMembers(s: seq<Html.Element>, panel: Html.Element, doc: Html.Document, e: Html.Element)
    ensures e in OutsidePanel(s, panel, doc) <==> e in s && !doc.contains(panel, e)
  {
    if |s| > 0 {
      OutsidePanelMembers(s[1..], panel, doc, e);
      assert s == [s[0]] + s[1..];
    }
  }

  /** Keeping the elements outside the panel works piecewise, so their document order is kept. */
  lemma {:induction false} OutsidePanelAppend(s: seq<Html.Element>, t: seq<Html.Element>, panel: Html.Element, doc: Html.Document)
    ensures OutsidePanel(s + t, panel, doc) == OutsidePanel(s, panel, doc) + OutsidePanel(t, panel, doc)
  {
    if |s| == 0 {
      assert s + t == t;
    } else {
      var head := if doc.contains(panel, s[0]) then [] else [s[0]];
      assert (s + t)[0] == s[0] && (s + t)[1..] == s[1..] + t;
      assert OutsidePanel(s + t, panel, doc) == head + OutsidePanel(s[1..] + t, panel, doc);
      assert OutsidePanel(s, panel, doc) == head + OutsidePanel(s[1..], panel, doc);
      OutsidePanelAppend(s[1..], t, panel, doc);
    }
  }

  /**
   * On Overflow: the focusable elements after the button, leaving out those
   * inside the panel (`elements.splice(buttonIdx + 1).filter(...)`).
   */
  function OverflowCandidates(elements: seq<Html.Element>, button: Html.Element, panel: Html.Element, doc: Html.Document): (r: seq<Html.Element>)
    ensures forall e :: e in r <==>
      e in elements[Lists.FirstIndex(elements, button) + 1..] && !doc.contains(panel, e)
  {
    var after := elements[Lists.FirstIndex(elements, button) + 1..];
    assert forall e :: e in OutsidePanel(after, panel, doc) <==> e in after && !doc.contains(panel, e) by {
      forall e ensures e in OutsidePanel(after, panel, doc) <==> e in after && !doc.contains(panel, e) {
        OutsidePanelMembers(after, panel, doc, e);
      }
    }
    OutsidePanel(after, panel, doc)
  }

  /** When the button is not focusable (index -1) every focusable outside the panel is a candidate. */
  lemma OverflowWithoutButton(elements: seq<Html.Element>, button: Html.Element, panel: Html.Element, doc: Html.Document)
    requires button !in elements
    ensures OverflowCandidates(elements, button, panel, doc) == OutsidePanel(elements, panel, doc)
  {
    assert elements[0..] == elements;
  }

  /**
   * The candidates are exactly what follows the button: all the focusables
   * outside the panel are those before and at the button, then the candidates.
   */
  lemma OverflowSplitsAtButton(elements: seq<Html.Element>, button: Html.Element, panel: Html.Element, doc: Html.Document)
    requires button in elements
    ensures var i := Lists.FirstIndex(elements, button);
      OutsidePanel(elements, panel, doc) ==
        OutsidePanel(elements[..i + 1], panel, doc) + OverflowCandidates(elements, button, panel, doc)
  {
    var i := Lists.FirstIndex(elements, button);
    assert elements == elements[..i + 1] + elements[i + 1..];
    OutsidePanelAppend(elements[..i + 1], elements[i + 1..], panel, doc);
  }

  /** When no element is listed twice the button itself is never a candidate. */
  lemma ButtonNotACandidate(elements: seq<Html.Element>, button: Html.Element, panel: Html.Element, doc: Html.Document)
    requires forall i, j :: 0 <= i < j < |elements| ==> elements[i] != elements[j]
    ensures button !in OverflowCandidates(elements, button, panel, doc)
  {
  }

  /** The keydown handler acts only while open and mounted, for Tab, with focus inside the panel. */
  predicate TabKeyApplies(api: PanelApi, ev: KeyEvent, doc: Html.Document) {
    api.state == Open && api.panel.Some? && ev.key == Keys.Tab && Html.HoldsFocus(doc, api.panel)
  }

  function TabDirection(ev: KeyEvent): Focus {
    if ev.shiftKey then Previous else Next
  }

  /**
   * The window `keydown` handler of the panel. `focusables` is
   * `getFocusableElements()` of the whole document.
   */
  function TabKeyEffects(api: PanelApi, ev: KeyEvent, doc: Html.Document, focusables: seq<Html.Element>, focusIn: FocusOracle): (r: seq<Effect>)
    ensures r == [] <==> !TabKeyApplies(api, ev, doc)
    ensures TabKeyApplies(api, ev, doc) ==>
      |r| >= 2 && r[0] == PreventDefault && r[1] == FocusIn(Container(api.panel.value), TabDirection(ev))
    ensures TabKeyApplies(api, ev, doc) && focusIn(Container(api.panel.value), TabDirection(ev)) == Underflow ==>
      r[2..] == (if api.button.Some? then [FocusElement(api.button.value)] else [])
    ensures TabKeyApplies(api, ev, doc) && focusIn(Container(api.panel.value), TabDirection(ev)) in {Success, Error} ==>
      |r| == 2
    ensures TabKeyApplies(api, ev, doc) && focusIn(Container(api.panel.value), TabDirection(ev)) == Overflow ==>
      if api.button.None? then |r| == 2
      else
        var next := OverflowCandidates(focusables, api.button.value, api.panel.value, doc);
        r[2..] == [FocusIn(Elements(next), First)] +
          (if focusIn(Elements(next), First) == Error then [FocusIn(Container(doc.body), First)] else [])
  {
    if api.state != Open then []
    else if api.panel.None? then []
    else if ev.key != Keys.Tab then []
    else if doc.active.None? then []
    else if !Html.HoldsFocus(doc, api.panel) then []
    else
      var panel := api.panel.value;
      var dir := TabDirection(ev);
      var start := [PreventDefault, FocusIn(Container(panel), dir)];
      match focusIn(Container(panel), dir)
      case Underflow =>
        start + (if api.button.Some? then [FocusElement(api.button.value)] else [])
      case Overflow =>
        if api.button.None? then start
        else
          var next := OverflowCandidates(focusables, api.button.value, panel, doc);
          var tried := start + [FocusIn(Elements(next), First)];
          if focusIn(Elements(next), First) == Error then tried + [FocusIn(Container(doc.body), First)] else tried
      case Success => start
      case Error => start
  }

  // --------------------------------------------------------------- Escape

  /** The panel's own `keydown` handler: Escape with focus inside an open, mounted panel. */
  function EscapeKeyEffects(api: PanelApi, ev: KeyEvent, doc: Html.Document): (r: seq<Effect>)
    ensures r != [] <==> ev.key == Keys.Escape && api.state == Open && Html.HoldsFocus(doc, api.panel)
    ensures r != [] ==> r == [PreventDefault, ClosePopover] + (if api.button.Some? then [FocusElement(api.button.value)] else [])
    ensures ClosePopover in r <==> r != []
  {
    if ev.key != Keys.Escape then []
    else if api.state != Open then []
    else if api.panel.None? then []
    else if !Html.HoldsFocus(doc, api.panel) then []
    else [PreventDefault, ClosePopover] + (if api.button.Some? then [FocusElement(api.button.value)] else [])
  }

  // ---------------------------------------------------------- focus mode

  /** The window `focus` listener: in focus mode, focus landing outside an open, mounted panel closes it. */
  function WindowFocusEffects(focus: bool, api: PanelApi, doc: Html.Document): (r: seq<Effect>)
    ensures r == [ClosePopover] <==>
      focus && api.state == Open && api.panel.Some? && !Html.HoldsFocus(doc, api.panel)
    ensures r != [ClosePopover] ==> r == []
  {
    if !focus then []
    else if api.state != Open then []
    else if api.panel.None? then []
    else if Html.HoldsFocus(doc, api.panel) then []
    else [ClosePopover]
  }

  /**
   * The focus-mode effect as written: `if (!api.panel) return` tests the ref
   * object, which is always truthy, so it never returns; with no panel
   * element mounted it goes on to `focusIn(dom(api.panel)!, First)`, that is
   * `focusIn(null, First)`.
   */
  function InitialFocusAsWritten(focus: bool, api: PanelApi, doc: Html.Document): (r: seq<Effect>)
    ensures r != [] <==> focus && api.state == Open && !Html.HoldsFocus(doc, api.panel)
    ensures r != [] ==> |r| == 1 && r[0].FocusIn? && r[0].focus == First
  {
    if !focus then []
    else if api.state != Open then []
    else if Html.HoldsFocus(doc, api.panel) then []
    else [FocusIn(if api.panel.Some? then Container(api.panel.value) else NullContainer, First)]
  }

  /** The guard as written lets an unmounted panel through: `focusIn` receives `null`. */
  lemma InitialFocusPassesNull(api: PanelApi, doc: Html.Document)
    requires api.state == Open && api.panel.None?
    ensures InitialFocusAsWritten(true, api, doc) == [FocusIn(NullContainer, First)]
  {
  }

  /** The focus-mode effect with the guard on the panel element, as in the other handlers. */
  function InitialFocus(focus: bool, api: PanelApi, doc: Html.Document): (r: seq<Effect>)
    ensures r != [] <==> focus && api.state == Open && api.panel.Some? && !Html.HoldsFocus(doc, api.panel)
    ensures r != [] ==> r == [FocusIn(Container(api.panel.value), First)]
  {
    if !focus then []
    else if api.state != Open then []
    else if api.panel.None? then []
    else if Html.HoldsFocus(doc, api.panel) then []
    else [FocusIn(Container(api.panel.value), First)]
  }

  /** The corrected effect never hands `null` to `focusIn`, and agrees with the source whenever a panel is mounted. */
  lemma InitialFocusCorrected(focus: bool, api: PanelApi, doc: Html.Document, f: Focus)
    ensures FocusIn(NullContainer, f) !in InitialFocus(focus, api, doc)
    ensures api.panel.Some? ==> InitialFocus(focus, api, doc) == InitialFocusAsWritten(focus, api, doc)
  {
  }

  // ---------------------------------------------------------------- group

  /** What a popover registers with its group; `handle` is the identity of the object, with its `close()`. */
  datatype RegisterBag = RegisterBag(buttonId: string, panelId: string, handle: nat)

  /** Focus is inside the element with the bag's button id or its panel id. */
  predicate BagHoldsFocus(doc: Html.Document, bag: RegisterBag) {
    Html.HoldsFocus(doc, Html.GetElementById(doc, bag.buttonId)) ||
    Html.HoldsFocus(doc, Html.GetElementById(doc, bag.panelId))
  }

  /** `popovers.some(...)`. */
  function SomeBagHoldsFocus(doc: Html.Document, bags: seq<RegisterBag>): (r: bool)
    ensures r <==> exists i :: 0 <= i < |bags| && BagHoldsFocus(doc, bags[i])
  {
    if |bags| == 0 then false
    else if BagHoldsFocus(doc, bags[0]) then true
    else
      assert forall i :: 1 <= i < |bags| ==> bags[i] == bags[1..][i - 1];
      SomeBagHoldsFocus(doc, bags[1..])
  }

  /** The bags `closeOthers(buttonId)` closes, in registry order. */
  function OthersOf(bags: seq<RegisterBag>, buttonId: string): (r: seq<RegisterBag>)
    ensures forall b :: b in r <==> b in bags && b.buttonId != buttonId
  {
    if |bags| == 0 then []
    else
      var init, last := bags[..|bags| - 1], bags[|bags| - 1];
      assert bags == init + [last];
      OthersOf(init, buttonId) + (if last.buttonId != buttonId then [last] else [])
  }

  /**
   * `closeOthers` closes every bag with another button id as many times as
   * it is registered (once, for a bag registered once), and never a bag
   * with that button id.
   */
  lemma {:induction false} OthersOfCount(bags: seq<RegisterBag>, buttonId: string, b: RegisterBag)
    ensures multiset(OthersOf(bags, buttonId))[b] == if b.buttonId != buttonId then multiset(bags)[b] else 0
  {
    if |bags| > 0 {
      var init, last := bags[..|bags| - 1], bags[|bags| - 1];
      assert bags == init + [last];
      OthersOfCount(init, buttonId, b);
    }
  }

  class PopoverGroup {
    /** `popovers.value`, in registration order. */
    var popovers: seq<RegisterBag>
    /** The bags whose `close()` has been called, in order. */
    var closeCalls: seq<RegisterBag>
    /** `dom(groupRef)`. */
    var groupEl: Option<Html.Element>

    constructor (groupEl: Option<Html.Element>)
      ensures popovers == [] && closeCalls == [] && this.groupEl == groupEl
    {
      popovers := [];
      closeCalls := [];
      this.groupEl := groupEl;
    }

    /** `registerPopover(bag)`: appends the bag; the closure it returns is `UnregisterPopover(bag)`. */
    method RegisterPopover(bag: RegisterBag)
      modifies this
      ensures popovers == old(popovers) + [bag]
      ensures closeCalls == old(closeCalls) && groupEl == old(groupEl)
    {
      popovers := popovers + [bag];
    }

    /** `unregisterPopover(bag)`: removes the first occurrence of that very bag, if any. */
    method UnregisterPopover(bag: RegisterBag)
      modifies this
      ensures popovers == Lists.RemoveFirst(old(popovers), bag)
      ensures closeCalls == old(closeCalls) && groupEl == old(groupEl)
    {
      var idx := Lists.FirstIndex(popovers, bag);
      if idx != -1 {
        popovers := popovers[..idx] + popovers[idx + 1..];
      }
    }

    /** `isFocusWithinPopoverGroup()`. */
    function IsFocusWithinPopoverGroup(doc: Html.Document): (r: bool)
      reads this
      ensures r <==> Html.HoldsFocus(doc, groupEl) ||
                     exists i :: 0 <= i < |popovers| && BagHoldsFocus(doc, popovers[i])
    {
      Html.HoldsFocus(doc, groupEl) || SomeBagHoldsFocus(doc, popovers)
    }

    /** `closeOthers(buttonId)`: calls `close()` on each registered bag with another button id. */
    method CloseOthers(buttonId: string)
      modifies this
      ensures popovers == old(popovers) && groupEl == old(groupEl)
      ensures closeCalls == old(closeCalls) + OthersOf(popovers, buttonId)
    {
      var i := 0;
      while i < |popovers|
        invariant 0 <= i <= |popovers|
        invariant popovers == old(popovers) && groupEl == old(groupEl)
        invariant closeCalls == old(closeCalls) + OthersOf(popovers[..i], buttonId)
      {
        assert popovers[..i + 1][..i] == popovers[..i];
        if popovers[i].buttonId != buttonId {
          closeCalls := closeCalls + [popovers[i]];
        }
        i := i + 1;
      }
      assert popovers[..i] == popovers;
    }
  }
}
