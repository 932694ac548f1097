/**
 * `useLabels`: an ordered list of label ids that child components register
 * and unregister, and the derived value used for `aria-labelledby`.
 * `useDescriptions` holds the same registry (see module Descriptions).
 */
module Labels {
  import opened Base
  import Lists
  import Text

  class IdList {
    /** `labelIds.value`, in registration order. */
    var ids: seq<string>

    constructor ()
      ensures ids == []
    {
      ids := [];
    }

    /**
     * `register(value)`: appends `value`. The closure it returns is
     * `Unregister(value)`.
     */
    method Register(v: string)
      modifies this
      ensures ids == old(ids) + [v]
    {
      ids := ids + [v];
    }

    /** The unregister closure: removes the first `v`, or does nothing when there is none. */
    method Unregister(v: string)
      modifies this
      ensures ids == Lists.RemoveFirst(old(ids), v)
      ensures v !in old(ids) ==> ids == old(ids)
      ensures v in old(ids) ==> |ids| == |old(ids)| - 1 && multiset(ids) == multiset(old(ids)) - multiset{v}
    {
      var idx := Lists.FirstIndex(ids, v);
      if idx == -1 {
        return;
      }
      Lists.RemovePresent(ids, v);
      ids := ids[..idx] + ids[idx + 1..];
    }

    /** The computed id string: `undefined` for no ids, otherwise the ids joined with single spaces. */
    function Joined(): (r: Option<string>)
      reads this
      ensures r.None? <==> ids == []
      ensures r.Some? ==> r.value == Text.Join(ids, " ")
    {
      JoinedIds(ids)
    }
  }

  /** The derived value of a registry holding `ids`. */
  function JoinedIds(ids: seq<string>): (r: Option<string>)
    ensures r.None? <==> ids == []
    ensures r.Some? && |ids| == 1 ==> r.value == ids[0]
  {
    if |ids| > 0 then Some(Text.Join(ids, " ")) else None
  }

  /**
   * Registering and then calling the closure brings the derived value back
   * to what it was, when the id was not registered already.
   */
  lemma RegisterUnregisterRoundTrip(ids: seq<string>, v: string)
    requires v !in ids
    ensures JoinedIds(Lists.RemoveFirst(ids + [v], v)) == JoinedIds(ids)
  {
    Lists.AppendThenRemove(ids, v);
  }

  /** Registering one more id adds a space and the id at the end of the derived value. */
  lemma RegisterExtendsJoined(ids: seq<string>, v: string)
    requires |ids| > 0
    ensures JoinedIds(ids + [v]) == Some(JoinedIds(ids).value + " " + v)
  {
    Text.JoinSnoc(ids, v, " ");
  }

  /** The derived value is the id list, recoverable by splitting at spaces when no id contains one. */
  lemma JoinedIdsSplit(ids: seq<string>)
    requires |ids| > 0
    requires forall i :: 0 <= i < |ids| ==> ' ' !in ids[i]
    ensures JoinedIds(ids).Some? && Text.Split(JoinedIds(ids).value) == ids
  {
    Text.SplitJoin(ids);
  }

  /** Registering "a" then "b" gives "a b"; removing "a" gives "b"; removing "b" gives no value. */
  method LabelsScenario()
  {
    var labels := new IdList();
    labels.Register("a");
    labels.Register("b");
    assert labels.ids == ["a", "b"];
    assert ["a", "b"][1..] == ["b"];
    assert Text.Join(["a", "b"], " ") == "a" + " " + "b" == "a b";
    assert labels.Joined() == Some("a b");
    labels.Unregister("a");
    assert Lists.FirstIndex(["a", "b"], "a") == 0;
    assert labels.ids == ["b"];
    assert labels.Joined() == Some("b");
    labels.Unregister("b");
    assert labels.Joined() == None;
  }
}
