/**
 * `useResolveButtonType`: the `type` attribute a button-like component
 * renders with. It is resolved from the props at setup and again on mount,
 * and an effect fills it in for a mounted `<button>` without a `type`.
 */
module ButtonType {
  import opened Base
  import opened JsValues
  import Text
  import Helper
  import Html

  /** `as ?? 'button'` is a string equal to 'button' ignoring case. */
  predicate IsButtonTag(tag: Value)
    ensures Nullish(tag) ==> IsButtonTag(tag)
    ensures tag.Str? ==> (IsButtonTag(tag) <==> Text.Lower(tag.s) == "button")
    ensures !Nullish(tag) && !tag.Str? ==> !IsButtonTag(tag)
  {
    var t := Coalesce(tag, Str("button"));
    t.Str? && Text.Lower(t.s) == "button"
  }

  /** `resolveType(type, as)`. */
  function ResolveType(typ: Value, tag: Value): (r: Value)
    ensures Truthy(typ) ==> r == typ
    ensures !Truthy(typ) && IsButtonTag(tag) ==> r == Str("button")
    ensures !Truthy(typ) && !IsButtonTag(tag) ==> r == Undefined
  {
    if Truthy(typ) then typ
    else if IsButtonTag(tag) then Str("button")
    else Undefined
  }

  /** A missing tag counts as 'button', and so does any spelling of it; a component never does. */
  lemma ButtonTags(handle: nat)
    ensures IsButtonTag(Undefined) && IsButtonTag(Null)
    ensures IsButtonTag(Str("BUTTON")) && IsButtonTag(Str("Button"))
    ensures !IsButtonTag(Str("a")) && !IsButtonTag(Str("buttons"))
    ensures !IsButtonTag(Ref(handle)) && !IsButtonTag(Obj(map[]))
  {
    assert Text.Lower("BUTTON") == "button";
    assert Text.Lower("Button") == "button";
    assert Text.Lower("button") == "button";
    assert |Text.Lower("buttons")| == 7;
  }

  /** Resolving again from the result changes nothing. */
  lemma ResolveTypeStable(typ: Value, tag: Value)
    ensures ResolveType(ResolveType(typ, tag), tag) == ResolveType(typ, tag)
  {
  }

  /** The two DOM facts the effect reads of the mounted element. */
  datatype ElementFacts = ElementFacts(
    isButton: Html.Element -> bool,          // `instanceof HTMLButtonElement`
    hasTypeAttribute: Html.Element -> bool)  // `hasAttribute('type')`

  /** The `type` after the effect has run once on element `el` (`dom(refElement)`). */
  function EffectOutcome(typ: Value, el: Option<Html.Element>, facts: ElementFacts): (r: Value)
    ensures Truthy(typ) ==> r == typ
    ensures r != typ ==> r == Str("button")
    ensures r != typ <==> !Truthy(typ) && el.Some? && facts.isButton(el.value) && !facts.hasTypeAttribute(el.value)
  {
    if Truthy(typ) then typ
    else if el.None? then typ
    else if facts.isButton(el.value) && !facts.hasTypeAttribute(el.value) then Str("button")
    else typ
  }

  /** Once the effect has filled the slot, running it again, on any element, keeps the value. */
  lemma EffectFillsOnce(typ: Value, el: Option<Html.Element>, facts: ElementFacts,
                        el': Option<Html.Element>, facts': ElementFacts)
    requires EffectOutcome(typ, el, facts) != typ
    ensures EffectOutcome(EffectOutcome(typ, el, facts), el', facts') == EffectOutcome(typ, el, facts)
  {
  }

  /** Running the effect twice in the same situation is the same as running it once. */
  lemma EffectIdempotent(typ: Value, el: Option<Html.Element>, facts: ElementFacts)
    ensures EffectOutcome(EffectOutcome(typ, el, facts), el, facts) == EffectOutcome(typ, el, facts)
  {
  }

  /** `data.value`: the component's `as` and `type` props. */
  datatype ButtonData = ButtonData(tag: Value, typ: Value)

  class ResolvedType {
    /** `type.value`. */
    var typ: Value

    /** `ref(resolveType(data.value.type, data.value.as))`. */
    constructor (data: ButtonData)
      ensures typ == ResolveType(data.typ, data.tag)
    {
      typ := ResolveType(data.typ, data.tag);
    }

    /** The `onMounted` hook: resolves again from the current props. */
    method Mounted(data: ButtonData)
      modifies this
      ensures typ == ResolveType(data.typ, data.tag)
    {
      typ := ResolveType(data.typ, data.tag);
    }

    /** One run of the `watchEffect`; `ref` is `refElement.value`. */
    method Effect(ref: Option<Helper.RefValue>, facts: ElementFacts)
      modifies this
      ensures typ == EffectOutcome(old(typ), Helper.Dom(Some(ref)), facts)
      ensures Truthy(old(typ)) ==> typ == old(typ)
    {
      if Truthy(typ) {
        return;
      }
      var el := Helper.Dom(Some(ref));
      if el.None? {
        return;
      }
      if facts.isButton(el.value) && !facts.hasTypeAttribute(el.value) {
        typ := Str("button");
      }
    }
  }
}
