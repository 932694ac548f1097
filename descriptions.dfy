/**
 * `useDescriptions` and the `Description` component. The registry behind
 * `useDescriptions` is the same code as `useLabels`, so it is the class
 * `Labels.IdList`.
 */
module Descriptions {
  import opened Base
  import opened JsValues
  import Lists
  import Text
  import Labels
  import Helper

  /** `useDescriptions()`: a fresh, empty registry; its joined ids are `Joined()`. */
  method UseDescriptions() returns (ctx: Labels.IdList)
    ensures fresh(ctx) && ctx.ids == [] && ctx.Joined() == None
  {
    ctx := new Labels.IdList();
  }

  const DescriptionIdPrefix: string := "headlessui-description-"

  /** The id of the description given counter value `n`. */
  function DescriptionId(n: nat): (s: string)
    ensures |s| > |DescriptionIdPrefix| && s[..|DescriptionIdPrefix|] == DescriptionIdPrefix
  {
    DescriptionIdPrefix + Text.NatToString(n)
  }

  /** Two descriptions have the same id only if they drew the same counter value. */
  lemma DescriptionIdInjective(m: nat, n: nat)
    ensures DescriptionId(m) == DescriptionId(n) <==> m == n
  {
    if DescriptionId(m) == DescriptionId(n) {
      assert DescriptionId(m)[|DescriptionIdPrefix|..] == Text.NatToString(m);
      assert DescriptionId(n)[|DescriptionIdPrefix|..] == Text.NatToString(n);
      Text.NatToStringInjective(m, n);
    }
  }

  /**
   * The props a `Description` renders with: its own props, then the props
   * the context controls, then its id; later ones win.
   */
  function DescriptionProps(id: string, own: map<string, Value>, controlled: map<string, Value>): (r: map<string, Value>)
    ensures r.Keys == own.Keys + controlled.Keys + {"id"}
    ensures r["id"] == Str(id)
    ensures forall k :: k in controlled && k != "id" ==> r[k] == controlled[k]
    ensures forall k :: k in own && k !in controlled && k != "id" ==> r[k] == own[k]
  {
    (own + controlled)["id" := Str(id)]
  }

  /** A `Description` rendered as an element carries its own id, as the registered id. */
  lemma DescriptionRendersItsId(id: string, own: map<string, Value>, controlled: map<string, Value>,
                                attrs: map<string, Value>, children: Option<seq<Helper.Node>>, name: string)
    requires Get(DescriptionProps(id, own, controlled), "as") != Helper.TemplateTag
    ensures var main := Helper.RenderInput(DescriptionProps(id, own, controlled), attrs, children, name);
      var r := Helper.Render(main, true, Helper.FeatureNone);
      r.Ok? && r.value.Single? && r.value.node.Created? && r.value.node.props["id"] == Str(id)
  {
    var props := DescriptionProps(id, own, controlled);
    var main := Helper.RenderInput(props, attrs, children, name);
    assert "id" in Helper.PassThrough(props);
  }

  class Description {
    /** `headlessui-description-<n>`, drawn from the id counter at setup. */
    const id: string

    constructor (gen: Helper.IdGenerator)
      requires gen.Valid()
      modifies gen
      ensures gen.Valid() && gen.id == old(gen.id) + 1 && gen.issued == old(gen.issued) + [gen.id]
      ensures id == DescriptionId(gen.id)
    {
      var n := Helper.UseId(gen);
      id := DescriptionId(n);
    }

    /** On mount: registers its id with the context. */
    method Mounted(ctx: Labels.IdList)
      modifies ctx
      ensures ctx.ids == old(ctx.ids) + [id]
    {
      ctx.Register(id);
    }

    /** On unmount: the closure `register` returned removes exactly that id. */
    method Unmounted(ctx: Labels.IdList)
      modifies ctx
      ensures ctx.ids == Lists.RemoveFirst(old(ctx.ids), id)
    {
      ctx.Unregister(id);
    }
  }

  /** Two descriptions set up from one counter get different ids, and unmounting one leaves the other registered. */
  method DescriptionsScenario()
  {
    var gen := new Helper.IdGenerator();
    var ctx := UseDescriptions();
    var d1 := new Description(gen);
    var d2 := new Description(gen);
    DescriptionIdInjective(1, 2);
    assert d1.id != d2.id;
    d1.Mounted(ctx);
    d2.Mounted(ctx);
    assert ctx.ids == [d1.id, d2.id];
    d1.Unmounted(ctx);
    assert Lists.FirstIndex([d1.id, d2.id], d1.id) == 0;
    assert ctx.ids == [d2.id];
  }
}
