# Headless Vue primitives: a Dafny model

This project models the bookkeeping and decision rules of a set of headless
Vue components (popover, switch, tabs, accordion and the label/description
helpers), with Vue's reactivity taken out:

- **Render dispatcher** (`helper.ts`). `render` chooses between rendering,
  rendering hidden (`hidden` plus `display: none`) and rendering nothing, using
  the `visible` flag, the `Features` bit-set and the `static`/`unmount` props.
  `_render` strips the internal props. With `as="template"` it forwards the
  props onto exactly one child, or fails. The same file gives `match`, `omit`,
  `isValidElement`, the id counter and `dom`.
- **Ordered id registries** (`label.ts`, `description.ts`). `register` appends
  an id. The closure it returns removes the first occurrence of that id. The
  derived value is `undefined` for an empty list, and otherwise the ids joined
  with spaces. A `Description` draws the id `headlessui-description-<n>`,
  registers it on mount and removes it on unmount.
- **Tab registry** (`tab/context.ts`): `add`, `set`, `enable` and `disable`
  over the list of tab records, with the `setState` notifications of `set`.
- **Accordion exclusivity** (`accordion/context.ts`): one slot that holds the
  close callback of the current item and calls the previous one.
- **Popover group and panel** (`popover/popover.ts`). The group registry, with
  `closeOthers` and the focus-within test. The panel's keydown, Escape and
  focus handlers, and the `visible` rule of the overlay and the panel.
- **Button type** (`use-resolve-button-type.ts`): `resolveType`, plus the
  one-slot state that the mount hook and the effect update.

How the source is represented:

- Vue's `ref`, `computed` and `provide`/`inject` become plain class fields and
  explicit arguments.
- A lifecycle hook or a `watchEffect` run is a method call.
- `setState`, `close()` and the accordion callbacks have effects the model
  cannot see. Each call is appended to a log field (`notices`, `closeCalls`,
  `invoked`), in call order.
- The panel handlers only call collaborators. They are functions that return
  the list of calls they make (`Effect`): `preventDefault`, `focusIn`,
  `focus()` and `closePopover`.
- `focusIn` is an oracle parameter that returns a `FocusResult`.
- The DOM is a `Document` value: a containment relation, an id index,
  `activeElement` and `body`.
- Virtual nodes are opaque constructors. `Slotted` is a node the caller's slot
  produced, `Created` is `h(...)` and `Cloned` is `cloneVNode(...)`.
- Props and attributes are `map<string, Value>`, where `Value` keeps exactly
  what the code inspects about a JavaScript value: truthiness, nullishness and
  string contents.

Modules: `Base` (Option, Result), `JsValues`, `Html`, `Lists` (`indexOf`,
first-occurrence removal), `Text` (join, split, decimal digits, lower-casing),
`Helper` and `Keys`, `Labels`, `Descriptions`, `Tabs`, `Accordion`,
`OpenClosed`, `Popover`, `ButtonType`. `Labels.LabelsScenario` and
`Descriptions.DescriptionsScenario` are worked examples: short call sequences
that register and unregister ids and state the registry (for labels, also
the derived string) after each step.

Three behaviours of the code worth noting:

- `set(id)` calls `setState(true)` on every matching tab, including one that
  is already active. It does not notify only on a change
  (`tab/context.ts:28-29`).
- The focus-mode window listener closes the panel whenever focus is outside
  it. It makes no exception for the popover button (`popover.ts:208-218`).
- Register followed by its unregister closure always gives back the list
  when the id was new (`Lists.AppendThenRemove`). When an earlier copy of the
  id is present, the closure removes that earlier copy, so the order can
  change (`Lists.AppendThenRemoveReorders`). The multiset of ids always
  comes back (`Lists.AppendThenRemoveMultiset`).

## Model

| member | source | states |
|---|---|---|
| `Helper.Match` | src/components/switch/helper.ts:3-22 | a present key gives its entry, or the entry called with the arguments when it is a function; an absent key is an error that names the value and the defined keys |
| `Helper.Omit` | src/components/switch/helper.ts:147-153 | the copy lacks exactly the listed keys and agrees with the input on every other key; the loop's result equals `Omitted` |
| `Helper.Omitted` | src/components/switch/helper.ts:147-153 | the record minus the listed keys, equal to the input on every remaining key |
| `Helper.PassThrough` | src/components/switch/helper.ts:104 | the forwarded props are the props minus `as`, `unmount` and `static`, with values unchanged |
| `Helper.RenderMain` | src/components/switch/helper.ts:91-145 | a tag other than "template" gives `h(as, passThrough, children)`; a template with nothing to forward gives a lone child unchanged and otherwise the children as they are; a template with something to forward succeeds iff there is exactly one child and it is a valid element, and then gives the child cloned with the pass-through props; every error lists every prop and attribute key |
| `Helper.ValidElementKinds` | src/components/switch/helper.ts:155-161 | `isValidElement`: false for no child, comments, text and nodes created from a `null`, `undefined` or empty-string tag; true for other string tags, components and built-ins; a clone is valid iff its original is |
| `Helper.Render` | src/components/switch/helper.ts:49-89 | visible gives `_render(main)` whatever the features; the output is `null` iff not visible, no static override, RenderStrategy set and the Unmount strategy applies; the only possible error is the template error |
| `Helper.StrategyOf` | src/components/switch/helper.ts:72 | the strategy is Unmount iff `unmount` is null, undefined or truthy |
| `Helper.HiddenInput` | src/components/switch/helper.ts:79-82 | the props gain `hidden: true` and `style: {display: 'none'}`; every other prop, the attributes, the children and the name are kept |
| `Helper.RenderStatic` | src/components/switch/helper.ts:66-69 | not visible with the Static feature and a truthy `static` renders as if visible |
| `Helper.RenderUnmounted` | src/components/switch/helper.ts:71-77 | not visible, RenderStrategy set and `unmount` absent, null or truthy renders nothing |
| `Helper.RenderHidden` | src/components/switch/helper.ts:78-84 | not visible, RenderStrategy set and `unmount` set but falsy renders `_render` of the hidden input |
| `Helper.RenderWithoutFeature` | src/components/switch/helper.ts:86-88 | not visible and no applicable feature (including Static alone with `static` falsy) still renders |
| `Helper.HiddenPassThrough` | src/components/switch/helper.ts:79-82 | the props forwarded with the Hidden strategy hold `hidden` and `display: none` and none of `as`, `unmount`, `static` |
| `Helper.HiddenElement` | src/components/switch/helper.ts:78-83 | for an element tag the Hidden strategy materialises that element with the hidden pass-through props and the same children |
| `Helper.IdGenerator.constructor` | src/components/switch/helper.ts:164 | the counter starts at 0 and no id has been issued |
| `Helper.IdGenerator.Generate` | src/components/switch/helper.ts:164-167 | returns the previous counter plus one (1 first) and is larger than every id issued before, so no id repeats |
| `Helper.UseId` | src/components/switch/helper.ts:169-171 | the id it returns was not issued before and is the counter's new value |
| `Helper.Dom` | src/components/switch/helper.ts:200-204 | nothing iff the ref is missing or empty; the component's `$el` when there is one; otherwise the held element |
| `Lists.FirstIndex` | src/components/switch/label.ts:45 | -1 iff the value is absent; otherwise a position holding it with no earlier occurrence |
| `Lists.RemoveFirst` | src/components/switch/label.ts:45-47 | `indexOf` then `splice(idx, 1)`: an absent id leaves the list unchanged; a present one shortens it by one; the multiset loses exactly one copy of the id |
| `Lists.RemovePresent` | src/components/switch/label.ts:45-47 | removing a present id deletes exactly its first position and keeps the other entries in order |
| `Lists.AppendThenRemove` | src/components/switch/label.ts:41-48 | appending an id that was absent and calling its closure gives back the list |
| `Lists.AppendThenRemoveMultiset` | src/components/switch/label.ts:41-48 | register then unregister always gives back the same multiset of ids |
| `Lists.AppendThenRemoveReorders` | src/components/switch/label.ts:41-48 | an id registered twice comes back in another position: ["a","b"] gives ["b","a"] |
| `Labels.IdList.constructor` | src/components/switch/label.ts:40 | the registry starts empty |
| `Labels.IdList.Register` | src/components/switch/label.ts:41-42 | appends the id at the end and leaves the earlier entries as they were |
| `Labels.IdList.Unregister` | src/components/switch/label.ts:44-47 | removes only the first occurrence; a no-op for an absent id; otherwise one entry fewer |
| `Labels.IdList.Joined` | src/components/switch/label.ts:53-54 | the computed value is `undefined` iff no id is registered, and otherwise the ids joined with single spaces |
| `Labels.JoinedIds` | src/components/switch/label.ts:54 | `undefined` iff the list is empty; one id gives that id |
| `Labels.RegisterUnregisterRoundTrip` | src/components/switch/label.ts:41-54 | register then unregister of a new id restores the derived value |
| `Labels.RegisterExtendsJoined` | src/components/switch/label.ts:41-54 | registering one more id appends a space and that id to the derived value |
| `Labels.JoinedIdsSplit` | src/components/switch/label.ts:54 | for ids without spaces, splitting the derived value at spaces gives back the ids in registration order |
| `Text.Join` | src/components/switch/label.ts:54 | `join` of no parts is the empty string; otherwise the result begins with the first part |
| `Text.JoinSnoc` | src/components/switch/label.ts:54 | `join` of a list with one more element is the old join, the separator and the element |
| `Text.SplitJoin` | src/components/switch/label.ts:54 | `join(' ')` of space-free ids is inverted by splitting at spaces |
| `Text.NatToString` | src/components/switch/description.ts:74 | a number prints as at least one digit, exactly one below 10, ending in its last decimal digit |
| `Text.NatToStringInjective` | src/components/switch/description.ts:74 | different numbers print differently |
| `Text.Lower` | src/components/switch/use-resolve-button-type.ts:8 | lower-casing keeps the length and maps each character on its own |
| `Descriptions.UseDescriptions` | src/components/switch/description.ts:45-62 | a new, empty registry, whose derived value is `undefined` |
| `Descriptions.DescriptionId` | src/components/switch/description.ts:74 | the id is `headlessui-description-` followed by a non-empty rendering of the number |
| `Descriptions.DescriptionIdInjective` | src/components/switch/description.ts:74 | two descriptions have the same id iff they drew the same counter value, so ids from the counter are distinct |
| `Descriptions.Description.constructor` | src/components/switch/description.ts:72-74 | the description draws the next counter value and its id is built from it |
| `Descriptions.Description.Mounted` | src/components/switch/description.ts:76 | mounting appends exactly the description's id to the registry |
| `Descriptions.Description.Unmounted` | src/components/switch/description.ts:76 | unmounting removes the first occurrence of exactly that id |
| `Descriptions.DescriptionProps` | src/components/switch/description.ts:83-92 | own props, then the context's props, then `id`, later ones winning; `id` is the description's id |
| `Descriptions.DescriptionRendersItsId` | src/components/switch/description.ts:91-97 | a description rendered as an element carries its own id as the `id` prop |
| `Tabs.Activated` | src/components/tab/context.ts:26-36 | after `set(id)` a tab is active iff its id equals `id`; length, order, ids, disabled flags and owners are unchanged |
| `Tabs.NoticesSent` | src/components/tab/context.ts:27-35 | `setState(true)` goes to exactly the matching tabs; `setState(false)` goes to exactly the non-matching tabs that were active |
| `Tabs.NoticeFor` | src/components/tab/context.ts:28-34 | at most one call per tab, always to that tab's owner; `setState(true)` iff the tab matches, `setState(false)` iff it does not match and was active |
| `Tabs.Notices` | src/components/tab/context.ts:27-35 | never more notifications than tabs |
| `Tabs.NoticesCount` | src/components/tab/context.ts:27-35 | the number of notifications equals the number of tabs that match `id` or were active: one per tab that is told anything (`NoticeFor` gives each tab at most one) |
| `Tabs.NoticesToListedTabs` | src/components/tab/context.ts:27-35 | every notification goes to a tab of the list |
| `Tabs.SetAgain` | src/components/tab/context.ts:26-36 | `set(id)` twice leaves the same list as once, and the second call sends only `setState(true)` |
| `Tabs.WithDisabled` | src/components/tab/context.ts:37-49 | `disable`/`enable` set the flag on matching tabs only; other flags, the `active` flags, ids and order are unchanged |
| `Tabs.WithDisabledIdempotent` | src/components/tab/context.ts:37-49 | `enable` and `disable` applied twice with the same id equal one application |
| `Tabs.TabContext.constructor` | src/components/tab/context.ts:22 | no tabs and no notifications |
| `Tabs.TabContext.Add` | src/components/tab/context.ts:24 | appends the tab and keeps the earlier tabs |
| `Tabs.TabContext.Set` | src/components/tab/context.ts:26-36 | the new list is `Activated` and the notifications sent are appended in tab order |
| `Tabs.TabContext.Disable` | src/components/tab/context.ts:37-42 | the new list is `WithDisabled(…, true)`; no notification |
| `Tabs.TabContext.Enable` | src/components/tab/context.ts:44-49 | the new list is `WithDisabled(…, false)`; no notification |
| `Accordion.Displaced` | src/components/accordion/context.ts:15 | at most one callback runs; one runs iff a previous one exists and differs from `fn`; it is the previous one and never `fn` |
| `Accordion.RunClosesOnChange` | src/components/accordion/context.ts:14-17 | from an empty slot, a run of `setCurrent` calls invokes as many callbacks as there are switches to a different callback |
| `Accordion.RunFromHolder` | src/components/accordion/context.ts:14-17 | the same count, starting from a held callback |
| `Accordion.RunLogSnoc` | src/components/accordion/context.ts:14-17 | one more `setCurrent(f)` after a run adds exactly what `f` displaces from the slot the run left |
| `Accordion.AccordionContext.constructor` | src/components/accordion/context.ts:10 | the slot starts empty and nothing was invoked |
| `Accordion.AccordionContext.SetCurrent` | src/components/accordion/context.ts:14-17 | the slot holds `fn`; the invoked log grows by `Displaced(previous, fn)` |
| `Accordion.AccordionContext.SetCurrentRun` | src/components/accordion/context.ts:14-17 | a sequence of `setCurrent` calls leaves the last callback in the slot and logs exactly `RunLog` of the run, so from a fresh context the number of closes is `Changes` (`RunClosesOnChange`) |
| `Popover.Visible` | src/components/popover/popover.ts:220-227 | `visible` is "open-closed state is Open" when that state exists, and `popoverState == Open` otherwise (the overlay's computed, lines 95-102, is the same rule) |
| `Popover.PanelProps` | src/components/popover/popover.ts:255-262 | the panel passes exactly `as`, `static`, `unmount`, `focus`, `ref`, `id` and `onKeydown`, with `as`, `static`, `unmount` and `id` taken from its props and id |
| `Popover.ClosedPanelUnmounts` | src/components/popover/popover.ts:261-269 | a panel with default props that is not visible renders nothing |
| `Popover.ClosedPanelHides` | src/components/popover/popover.ts:261-269 | with `unmount=false`, a panel that is not visible is rendered as its element with the hidden props |
| `Popover.StaticPanelRenders` | src/components/popover/popover.ts:261-269 | a `static` panel renders whatever its visibility |
| `Popover.OutsidePanel` | src/components/popover/popover.ts:194 | filtering out panel descendants never lengthens the list |
| `Popover.OutsidePanelMembers` | src/components/popover/popover.ts:194 | an element is kept iff it is listed and not inside the panel |
| `Popover.OutsidePanelAppend` | src/components/popover/popover.ts:192-194 | the filter works piecewise, so candidates stay in document order |
| `Popover.OverflowCandidates` | src/components/popover/popover.ts:189-194 | the candidates are exactly the focusables after the button's index that are not inside the panel |
| `Popover.OverflowWithoutButton` | src/components/popover/popover.ts:190-193 | with the button absent (index -1) every focusable outside the panel is a candidate |
| `Popover.OverflowSplitsAtButton` | src/components/popover/popover.ts:190-194 | the focusables outside the panel are those up to the button followed by the candidates |
| `Popover.ButtonNotACandidate` | src/components/popover/popover.ts:190-194 | with no duplicate focusables, the button is never a candidate |
| `Popover.TabKeyEffects` | src/components/popover/popover.ts:168-205 | does nothing unless Open, mounted, key Tab and focus inside the panel; otherwise prevents the default and calls `focusIn(panel, Previous/Next)` by Shift; Underflow refocuses the button; Overflow tries the candidates with First and falls back to `focusIn(body, First)` exactly when that returns Error |
| `Popover.EscapeKeyEffects` | src/components/popover/popover.ts:232-243 | acts iff the key is Escape, the state Open, the panel mounted and focus inside it; then prevents the default, closes and refocuses the button |
| `Popover.WindowFocusEffects` | src/components/popover/popover.ts:208-218 | closes iff focus mode is on, the state Open, the panel mounted and focus outside it; otherwise does nothing |
| `Popover.InitialFocusAsWritten` | src/components/popover/popover.ts:156-165 | the effect as written acts iff focus mode, Open and focus not inside a mounted panel, with one `focusIn(…, First)` call |
| `Popover.InitialFocusPassesNull` | src/components/popover/popover.ts:156-165 | as written, an open popover in focus mode with no panel element calls `focusIn(null, First)` |
| `Popover.InitialFocus` | src/components/popover/popover.ts:156-165 | corrected: acts iff focus mode, Open, panel mounted and focus outside it, calling `focusIn(panel, First)` |
| `Popover.InitialFocusCorrected` | src/components/popover/popover.ts:156-165 | the corrected effect never passes `null` and agrees with the source whenever the panel is mounted |
| `Popover.SomeBagHoldsFocus` | src/components/popover/popover.ts:302-307 | true iff the focused element is inside the element with some bag's button id or panel id |
| `Popover.OthersOf` | src/components/popover/popover.ts:310-314 | a bag is closed iff it is registered and its button id differs from the given one |
| `Popover.OthersOfCount` | src/components/popover/popover.ts:310-314 | each such bag is closed as many times as it is registered (once for a bag registered once); a matching bag never |
| `Popover.PopoverGroup.constructor` | src/components/popover/popover.ts:281-282 | an empty registry and no close calls |
| `Popover.PopoverGroup.RegisterPopover` | src/components/popover/popover.ts:289-294 | appends the bag and leaves the close log and the group root unchanged |
| `Popover.PopoverGroup.UnregisterPopover` | src/components/popover/popover.ts:284-287 | removes the first occurrence of that bag, nothing if it is absent, other bags in order |
| `Popover.PopoverGroup.IsFocusWithinPopoverGroup` | src/components/popover/popover.ts:296-308 | true iff the focused element is inside the group root or inside some registered bag's button or panel |
| `Popover.PopoverGroup.CloseOthers` | src/components/popover/popover.ts:310-314 | the registry is unchanged and the close calls made are `OthersOf(popovers, id)`, in order |
| `ButtonType.ResolveType` | src/components/switch/use-resolve-button-type.ts:4-11 | a truthy `type` is returned unchanged; otherwise 'button' when `as ?? 'button'` is a string equal to 'button' ignoring case, and `undefined` for any other tag |
| `ButtonType.IsButtonTag` | src/components/switch/use-resolve-button-type.ts:7-8 | `null` and `undefined` count as 'button'; a string counts iff it lower-cases to 'button'; any other tag never |
| `ButtonType.ButtonTags` | src/components/switch/use-resolve-button-type.ts:7-8 | null and undefined count as 'button', as do 'BUTTON' and 'Button'; 'a', 'buttons' and components do not |
| `ButtonType.ResolveTypeStable` | src/components/switch/use-resolve-button-type.ts:4-11 | resolving again from the result changes nothing |
| `ButtonType.EffectOutcome` | src/components/switch/use-resolve-button-type.ts:23-30 | a set `type` is never overwritten; the effect changes `type` iff it is unset and the mounted element is a button without a `type` attribute, and then to 'button' |
| `ButtonType.EffectFillsOnce` | src/components/switch/use-resolve-button-type.ts:23-30 | once the effect has filled the slot, later runs on any element keep the value |
| `ButtonType.EffectIdempotent` | src/components/switch/use-resolve-button-type.ts:23-30 | running the effect twice in the same situation equals running it once |
| `ButtonType.ResolvedType.constructor` | src/components/switch/use-resolve-button-type.ts:17 | the initial value is `resolveType(type, as)` |
| `ButtonType.ResolvedType.Mounted` | src/components/switch/use-resolve-button-type.ts:19-21 | the mount hook resolves again from the current props |
| `ButtonType.ResolvedType.Effect` | src/components/switch/use-resolve-button-type.ts:23-30 | the new value is `EffectOutcome` on `dom(refElement)`; a truthy value is kept |

## Findings

| source | as written | input that shows it | evidently intended | confidence | as-written member | corrected member |
|---|---|---|---|---|---|---|
| src/components/popover/popover.ts:159 | `if (!api.panel) return` tests the ref object. A ref is always truthy, so the guard never returns, and the effect goes on to `focusIn(dom(api.panel)!, Focus.First)`, which is `focusIn(null, …)` | `focus` prop true, `popoverState` Open, panel element not mounted (`api.panel.value === null`) | return early when no panel element is mounted (`if (!dom(api.panel)) return`, as the other three handlers do) | medium, not executed; what `focusIn` does with `null` depends on code that is not part of this model | `Popover.InitialFocusPassesNull` | `Popover.InitialFocus` |

## Left out

- Vue reactivity, dependency injection and lifecycle hooks: they become fields, explicit arguments and method calls. The "missing parent" errors thrown by the context lookups are only lookup failures and are not modelled.
- `focusIn`, `getFocusableElements` and `isFocusableElement`, with real DOM traversal, scrolling and focus events: `focusIn` is an oracle parameter and the focusable list is an input.
- `cloneVNode`, `h` and the evaluation of `slots.default`: nodes are opaque constructors and the children are an input. A created node's type is taken to be its tag, except that `h` turns a `null`, `undefined` or empty-string tag into a comment node.
- The text of the thrown error messages (`helper.ts:13-19`, `helper.ts:112-131`): errors are `Err` values carrying the component name and the set of keys.
- The method-form closures returned by `register`/`registerPopover` are the `Unregister`/`UnregisterPopover` methods called with the same argument.
- `Popover.Visible` does not model that the computed re-evaluates on change: the caller supplies the current states.
- `render`'s defaults (`visible = true`, `features = None`) are passed explicitly by the callers.
- `Text.Lower` folds ASCII letters only, where JavaScript lower-cases all of Unicode. The only comparison made is with "button", and no non-ASCII character lower-cases to one of its letters, so the result is the same.
- `Helper.Features` is an 8-bit vector: only bits 1 and 2 are used by the source.
- The Popover root component (`togglePopover`, `closePopover`, the button) is not defined in `popover.ts`, so `closePopover` appears only as an effect and the popover's own state change is not modelled.
- The overlay's click handler only calls `closePopover`; its render props are not modelled separately from the panel's.
- The `Keys` table is only string constants (module `Keys`), the W3C UI Events named key values.
- The `Popover` module uses `Helper.Render`, `Helper.Features`, `Helper.Dom` and the `Keys` constants in place of `render`/`Features` from `utils/render`, `dom` from `utils/dom`, `useId` from `hooks/use-id` and `Keys` from `utils/keyboard` (`popover.ts:15-17,26`). Those files are not part of this model. `ClosedPanelUnmounts`, `ClosedPanelHides` and `StaticPanelRenders` hold only if they behave as the versions in `switch/helper.ts` do.
- Helper.IdGenerator.Generate: the counter is an unbounded natural. JavaScript's `++id` stops producing new integers at 2^53, so "no id repeats" holds only below that.
- `omit`'s default argument `keysToOmit = []` (`helper.ts:147`) is not modelled: its only caller here (`helper.ts:104`) passes the keys.
- `const { focus } = props` (`popover.ts:146`) reads `focus` once at setup. The handler functions take `focus` as an argument on every call, so a later change of the prop is not ruled out by the model.
- Popover.PopoverGroup: the group root `groupEl` is fixed by the constructor. In the source, `groupRef` is filled in only when the group mounts (`popover.ts:281`), so a focus test before mount is not modelled.
- Helper.Match: `value in lookup` is map membership. JavaScript's `in` also finds inherited keys such as `toString`, which the model reports as missing. The only caller here (`helper.ts:74`) passes `RenderStrategy` values, so this case does not arise.
- Descriptions.Description: `Mounted` and `Unmounted` take the registry as an argument. The source looks up one context at setup (`description.ts:74`) and passes that registry's closure to `onUnmounted` (`description.ts:76`). So the model does not rule out unmounting from a different registry, or unmounting without a mount first.
- NaN, floating point and `typeof` checks other than those listed are not modelled in `JsValues.Value`.
