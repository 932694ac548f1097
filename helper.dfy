/**
 * The render dispatcher and small helpers shared by all components:
 * `match`, the feature bit-set, `render` and `_render`, `omit`,
 * `isValidElement`, the id counter and `dom`.
 *
 * Virtual nodes are opaque: a node supplied by the caller's default slot is
 * `Slotted`, the result of `h(as, props, children)` is `Created`, and the
 * result of `cloneVNode(node, props)` is `Cloned`. The default slot is
 * evaluated by the framework; its result is an input here.
 */
module Helper {
  import opened Base
  import opened JsValues
  import Html

  // ---------------------------------------------------------------- match

  /** An entry of a `match` lookup table: a value returned as is, or a function called with the arguments. */
  datatype Handler<!A, R> = Constant(result: R) | Call(f: A -> R)

  /** The error `match` throws when no handler is defined for the value. */
  datatype MatchError<K> = NoHandler(value: K, defined: set<K>)

  /**
   * `match(value, lookup, ...args)`: the handler for `value`, called with the
   * arguments when it is a function; an error naming the defined keys when
   * there is none.
   */
  function Match<K, A, R>(value: K, lookup: map<K, Handler<A, R>>, args: A): (r: Result<R, MatchError<K>>)
    ensures r.Ok? <==> value in lookup
    ensures r.Ok? && lookup[value].Constant? ==> r.value == lookup[value].result
    ensures r.Ok? && lookup[value].Call? ==> r.value == lookup[value].f(args)
    ensures r.Err? ==> r.error.value == value && r.error.defined == lookup.Keys
  {
    if value in lookup then
      match lookup[value]
      case Constant(x) => Ok(x)
      case Call(f) => Ok(f(args))
    else
      Err(NoHandler(value, lookup.Keys))
  }

  // ------------------------------------------------------------- features

  /** `Features`: a bit-set. */
  type Features = bv8
  const FeatureNone: Features := 0
  const FeatureRenderStrategy: Features := 1
  const FeatureStatic: Features := 2

  datatype RenderStrategy = Unmount | Hidden

  // ---------------------------------------------------------------- nodes

  /** What `vnode.type` is for a node the caller supplied. */
  datatype NodeType =
    | HostTag(name: string)      // a string: 'div', 'span', ...
    | ComponentType(handle: nat) // an object: another component
    | BuiltinType(handle: nat)   // a function: a built-in such as Transition
    | CommentType                // a comment
    | TextType                   // a text node

  datatype Node =
    | Slotted(kind: NodeType, key: nat)
    | Created(tag: Value, props: map<string, Value>, children: Option<seq<Node>>)
    | Cloned(original: Node, extra: map<string, Value>)

  /**
   * `isValidElement`: a node whose type is a string, an object or a function.
   * A created node's type is its tag, except that `h` turns a `null`,
   * `undefined` or empty-string tag into a comment node; a clone keeps the
   * type of its original.
   */
  predicate IsValidElement(input: Option<Node>) {
    match input
    case None => false
    case Some(n) => IsElementNode(n)
  }

  predicate IsElementNode(n: Node) {
    match n
    case Slotted(kind, _) => kind.HostTag? || kind.ComponentType? || kind.BuiltinType?
    // `h(null)`, `h(undefined)` and `h('')` give comment nodes
    case Created(tag, _, _) => (tag.Str? && tag.s != "") || tag.Obj? || tag.Ref?
    case Cloned(original, _) => IsElementNode(original)
  }

  /**
   * No child, a comment or a text node, and a node created from a `null`,
   * `undefined` or empty-string tag are not elements; tags, components and built-ins are,
   * and a clone is one exactly when its original is.
   */
  lemma ValidElementKinds(n: Node, name: string, handle: nat, key: nat,
                          props: map<string, Value>, children: Option<seq<Node>>, extra: map<string, Value>)
    ensures !IsValidElement(None)
    ensures !IsValidElement(Some(Slotted(CommentType, key))) && !IsValidElement(Some(Slotted(TextType, key)))
    ensures IsValidElement(Some(Slotted(HostTag(name), key))) && IsValidElement(Some(Slotted(ComponentType(handle), key)))
    ensures IsValidElement(Some(Slotted(BuiltinType(handle), key)))
    ensures name != "" ==> IsValidElement(Some(Created(Str(name), props, children)))
    ensures IsValidElement(Some(Created(Ref(handle), props, children)))
    ensures !IsValidElement(Some(Created(Str(""), props, children)))
    ensures !IsValidElement(Some(Created(Null, props, children))) && !IsValidElement(Some(Created(Undefined, props, children)))
    ensures IsValidElement(Some(Cloned(n, extra))) <==> IsValidElement(Some(n))
  {
  }

  // ---------------------------------------------------------------- omit

  /** The record `o` without the keys in `keys`, and otherwise the same. */
  function Omitted<V>(o: map<string, V>, keys: seq<string>): (r: map<string, V>)
    ensures r.Keys == o.Keys - set k | k in keys
    ensures forall k :: k in r ==> r[k] == o[k]
  {
    map k | k in o && k !in keys :: o[k]
  }

  /**
   * `omit(object, keysToOmit)`: copies the record and deletes the listed keys
   * one at a time. Records are values here, so the input cannot change.
   */
  method Omit<V>(o: map<string, V>, keysToOmit: seq<string>) returns (clone: map<string, V>)
    ensures clone.Keys == o.Keys - set k | k in keysToOmit
    ensures forall k :: k in clone ==> clone[k] == o[k]
    ensures clone == Omitted(o, keysToOmit)
  {
    clone := o;
    for i := 0 to |keysToOmit|
      invariant clone.Keys == o.Keys - set k | k in keysToOmit[..i]
      invariant forall k :: k in clone ==> clone[k] == o[k]
    {
      var key := keysToOmit[i];
      assert keysToOmit[..i + 1] == keysToOmit[..i] + [key];
      if key in clone {
        clone := clone - {key};
      }
    }
    assert keysToOmit[..|keysToOmit|] == keysToOmit;
  }

  // -------------------------------------------------------------- _render

  /** What `_render` and `render` give back: one node, the children as they are, or `null`. */
  datatype Rendered = Single(node: Node) | Fragment(children: Option<seq<Node>>) | Nothing

  datatype RenderError =
    // `as="template"` with props to forward but not exactly one element child;
    // the keys are those of the pass-through props and attributes
    | PassingPropsOnTemplate(component: string, props: set<string>)
    // `match` found no handler for the render strategy
    | UnhandledStrategy(strategy: RenderStrategy)

  /** The argument of `render` and `_render`; `children` is what the default slot produced. */
  datatype RenderInput = RenderInput(
    props: map<string, Value>,
    attrs: map<string, Value>,
    children: Option<seq<Node>>,
    name: string)

  /** The props `_render` keeps to itself. */
  const InternalProps: seq<string> := ["unmount", "static"]
  const TemplateTag: Value := Str("template")

  /** The props `_render` forwards: everything but `as`, `unmount` and `static`. */
  function PassThrough(props: map<string, Value>): (r: map<string, Value>)
    ensures r.Keys == props.Keys - {"as", "unmount", "static"}
    ensures forall k :: k in r ==> r[k] == props[k]
  {
    Omitted(props, InternalProps) - {"as"}
  }

  /**
   * `_render`: any tag other than "template" is materialised with the
   * pass-through props and the children. A template with nothing to forward
   * gives its only child unchanged, and otherwise the children as they are.
   * A template with something to forward succeeds exactly when there is one
   * child and it is an element, and then gives that child cloned with the
   * pass-through props; otherwise it fails and names every prop and
   * attribute it could not forward.
   */
  function RenderMain(main: RenderInput): (r: Result<Rendered, RenderError>)
    ensures Get(main.props, "as") != TemplateTag ==>
      r == Ok(Single(Created(Get(main.props, "as"), PassThrough(main.props), main.children)))
    ensures Get(main.props, "as") == TemplateTag && !HasSomethingToForward(main) ==>
      if main.children.Some? && |main.children.value| == 1 then r == Ok(Single(main.children.value[0]))
      else r == Ok(Fragment(main.children))
    ensures Get(main.props, "as") == TemplateTag && HasSomethingToForward(main) ==>
      (r.Ok? <==> main.children.Some? && |main.children.value| == 1 && IsElementNode(main.children.value[0]))
    ensures Get(main.props, "as") == TemplateTag && HasSomethingToForward(main) && r.Ok? ==>
      r.value == Single(Cloned(main.children.value[0], PassThrough(main.props)))
    ensures r.Err? ==>
      r.error == PassingPropsOnTemplate(main.name, PassThrough(main.props).Keys + main.attrs.Keys)
  {
    var tag := Get(Omitted(main.props, InternalProps), "as");
    assert tag == Get(main.props, "as");
    var passThrough := PassThrough(main.props);
    if tag == TemplateTag then
      if |passThrough| > 0 || |main.attrs| > 0 then
        var all := if main.children.Some? then main.children.value else [];
        var first := if |all| > 0 then Some(all[0]) else None;
        if !IsValidElement(first) || |all| > 1 then
          Err(PassingPropsOnTemplate(main.name, passThrough.Keys + main.attrs.Keys))
        else
          Ok(Single(Cloned(first.value, passThrough)))
      else if main.children.Some? && |main.children.value| == 1 then
        Ok(Single(main.children.value[0]))
      else
        Ok(Fragment(main.children))
    else
      Ok(Single(Created(tag, passThrough, main.children)))
  }

  /** True when `_render` has props or attributes to forward. */
  predicate HasSomethingToForward(main: RenderInput) {
    |PassThrough(main.props)| > 0 || |main.attrs| > 0
  }

  // --------------------------------------------------------------- render

  /** The `static` prop takes over when the Static feature is on and the prop is truthy. */
  predicate StaticOverride(main: RenderInput, features: Features) {
    features & FeatureStatic != 0 && Truthy(Get(main.props, "static"))
  }

  /** `main.props.unmount ?? true`, read as a condition. */
  function StrategyOf(main: RenderInput): (s: RenderStrategy)
    ensures s == Unmount <==> Nullish(Get(main.props, "unmount")) || Truthy(Get(main.props, "unmount"))
  {
    if Truthy(Coalesce(Get(main.props, "unmount"), Bool(true))) then Unmount else Hidden
  }

  /** The input for the Hidden strategy: `{ ...props, hidden: true, style: { display: 'none' } }`. */
  function HiddenInput(main: RenderInput): (h: RenderInput)
    ensures h.attrs == main.attrs && h.children == main.children && h.name == main.name
    ensures h.props.Keys == main.props.Keys + {"hidden", "style"}
    ensures h.props["hidden"] == Bool(true) && h.props["style"] == Obj(map["display" := Str("none")])
    ensures forall k :: k in main.props && k != "hidden" && k != "style" ==> h.props[k] == main.props[k]
  {
    main.(props := main.props["hidden" := Bool(true)]["style" := Obj(map["display" := Str("none")])])
  }

  function StrategyHandlers(main: RenderInput): map<RenderStrategy, Handler<(), Result<Rendered, RenderError>>>
  {
    map[Unmount := Call((_: ()) => Ok(Nothing)),
        Hidden := Call((_: ()) => RenderMain(HiddenInput(main)))]
  }

  /**
   * `render`: decides between rendering, rendering hidden and rendering
   * nothing. The source's defaults are `visible = true`, `features = None`.
   */
  function Render(main: RenderInput, visible: bool, features: Features): (r: Result<Rendered, RenderError>)
    ensures visible ==> r == RenderMain(main)
    ensures r == Ok(Nothing) <==>
      !visible && !StaticOverride(main, features) && features & FeatureRenderStrategy != 0 && StrategyOf(main) == Unmount
    ensures r.Err? ==> r.error.PassingPropsOnTemplate?
  {
    if visible then RenderMain(main)
    else if StaticOverride(main, features) then RenderMain(main)
    else if features & FeatureRenderStrategy != 0 then
      match Match(StrategyOf(main), StrategyHandlers(main), ())
      case Ok(out) => out
      case Err(e) => Err(UnhandledStrategy(e.value))
    else RenderMain(main)
  }

  /** Not visible, but the caller passed `static`: rendered as if visible. */
  lemma RenderStatic(main: RenderInput, features: Features)
    requires StaticOverride(main, features)
    ensures Render(main, false, features) == RenderMain(main)
  {
  }

  /** Not visible, RenderStrategy on and `unmount` absent, null or truthy: nothing is rendered. */
  lemma RenderUnmounted(main: RenderInput, features: Features)
    requires !StaticOverride(main, features) && features & FeatureRenderStrategy != 0
    requires Nullish(Get(main.props, "unmount")) || Truthy(Get(main.props, "unmount"))
    ensures Render(main, false, features) == Ok(Nothing)
  {
  }

  /**
   * Not visible, RenderStrategy on and `unmount` set but falsy: rendered with
   * `hidden` and `display: none` added to the props.
   */
  lemma RenderHidden(main: RenderInput, features: Features)
    requires !StaticOverride(main, features) && features & FeatureRenderStrategy != 0
    requires !Nullish(Get(main.props, "unmount")) && !Truthy(Get(main.props, "unmount"))
    ensures Render(main, false, features) == RenderMain(HiddenInput(main))
  {
  }

  /** Not visible and no feature applies: rendered anyway. */
  lemma RenderWithoutFeature(main: RenderInput, features: Features)
    requires !StaticOverride(main, features) && features & FeatureRenderStrategy == 0
    ensures Render(main, false, features) == RenderMain(main)
  {
  }

  /** The props forwarded under the Hidden strategy hold `hidden` and `display: none`, and no internal prop. */
  lemma HiddenPassThrough(main: RenderInput)
    ensures var p := PassThrough(HiddenInput(main).props);
      p["hidden"] == Bool(true) && p["style"] == Obj(map["display" := Str("none")]) &&
      "unmount" !in p && "static" !in p && "as" !in p
  {
    var h := HiddenInput(main);
    assert "hidden" in h.props.Keys && "hidden" in PassThrough(h.props);
  }

  /** For an element tag the Hidden strategy materialises that element, with the hidden props. */
  lemma HiddenElement(main: RenderInput)
    requires Get(main.props, "as") != TemplateTag
    ensures RenderMain(HiddenInput(main)) ==
      Ok(Single(Created(Get(main.props, "as"), PassThrough(HiddenInput(main).props), main.children)))
  {
    var h := HiddenInput(main);
    assert Get(h.props, "as") == Get(main.props, "as");
  }

  // ------------------------------------------------------------------ ids

  /** The module-level counter behind `generateId` and `useId`. */
  class IdGenerator {
    var id: nat
    ghost var issued: seq<nat>

    ghost predicate Valid()
      reads this
    {
      |issued| == id && forall i :: 0 <= i < |issued| ==> issued[i] == i + 1
    }

    constructor ()
      ensures Valid() && id == 0 && issued == []
    {
      id := 0;
      issued := [];
    }

    /** `++id`: 1 the first time, then one more at each call, so never the same id twice. */
    method Generate() returns (r: nat)
      requires Valid()
      modifies this
      ensures Valid()
      ensures r == old(id) + 1 && id == r && issued == old(issued) + [r]
      ensures forall x :: x in old(issued) ==> x < r
    {
      id := id + 1;
      issued := issued + [id];
      r := id;
    }
  }

  /** `useId()`. */
  method UseId(gen: IdGenerator) returns (r: nat)
    requires gen.Valid()
    modifies gen
    ensures gen.Valid() && r == old(gen.id) + 1 && gen.id == r && gen.issued == old(gen.issued) + [r]
    ensures r !in old(gen.issued)
  {
    r := gen.Generate();
  }

  // ------------------------------------------------------------------ dom

  /** What a template ref holds: an element, or a component instance whose root is `$el`. */
  datatype RefValue = RefValue(target: Html.Element, dollarEl: Option<Html.Element>)

  /**
   * `dom(ref)`: nothing for a missing ref or an empty one, the `$el` of a
   * component instance when it has one, and the held element otherwise.
   */
  function Dom(ref: Option<Option<RefValue>>): (r: Option<Html.Element>)
    ensures r.None? <==> ref.None? || ref.value.None?
    ensures r.Some? && ref.value.value.dollarEl.Some? ==> r.value == ref.value.value.dollarEl.value
    ensures r.Some? && ref.value.value.dollarEl.None? ==> r.value == ref.value.value.target
  {
    match ref
    case None => None
    case Some(None) => None
    case Some(Some(v)) => if v.dollarEl.Some? then v.dollarEl else Some(v.target)
  }
}

/** The named key values of the W3C UI Events specification that the components compare against. */
module Keys {
  const Space: string := " "
  const Enter: string := "Enter"
  const Escape: string := "Escape"
  const Backspace: string := "Backspace"
  const ArrowLeft: string := "ArrowLeft"
  const ArrowUp: string := "ArrowUp"
  const ArrowRight: string := "ArrowRight"
  const ArrowDown: string := "ArrowDown"
  const Home: string := "Home"
  const End: string := "End"
  const PageUp: string := "PageUp"
  const PageDown: string := "PageDown"
  const Tab: string := "Tab"
}
