/**
 * `useAccordionContext`: one slot for the close callback of the item that
 * was opened last. Setting a new callback first calls the previous one.
 */
module Accordion {
  import opened Base

  /** A close callback, known by its identity. */
  datatype Callback = Callback(handle: nat)

  /** The callbacks `setCurrent(fn)` invokes when the slot held `prev`. */
  function Displaced(prev: Option<Callback>, fn: Callback): (r: seq<Callback>)
    ensures |r| <= 1
    ensures r != [] <==> prev.Some? && prev.value != fn
    ensures fn !in r
    ensures forall c :: c in r ==> prev == Some(c)
  {
    if prev.Some? && prev.value != fn then [prev.value] else []
  }

  /** The callbacks a run of `setCurrent` calls invokes, starting from slot `prev`. */
  function RunLog(prev: Option<Callback>, fns: seq<Callback>): seq<Callback>
    decreases |fns|
  {
    if |fns| == 0 then [] else Displaced(prev, fns[0]) + RunLog(Some(fns[0]), fns[1..])
  }

  /** The slot after a run of `setCurrent` calls that started from `prev`. */
  function Held(prev: Option<Callback>, fns: seq<Callback>): Option<Callback>
  {
    if |fns| == 0 then prev else Some(fns[|fns| - 1])
  }

  /** One more `setCurrent(f)` adds what `f` displaces from the slot the run left. */
  lemma {:induction false} RunLogSnoc(prev: Option<Callback>, fns: seq<Callback>, f: Callback)
    ensures RunLog(prev, fns + [f]) == RunLog(prev, fns) + Displaced(Held(prev, fns), f)
    decreases |fns|
  {
    if |fns| == 0 {
      assert RunLog(prev, [f]) == Displaced(prev, f) + RunLog(Some(f), []);
    } else {
      assert (fns + [f])[1..] == fns[1..] + [f];
      RunLogSnoc(Some(fns[0]), fns[1..], f);
      assert Held(Some(fns[0]), fns[1..]) == Held(prev, fns);
    }
  }

  /** How many times a sequence of callbacks switches from one to a different one. */
  function Changes(fns: seq<Callback>): nat
  {
    if |fns| <= 1 then 0 else (if fns[0] != fns[1] then 1 else 0) + Changes(fns[1..])
  }

  /**
   * Starting from an empty slot, a run of `setCurrent` calls closes one item
   * each time a different item takes the slot, and at no other time.
   */
  lemma {:induction false} RunClosesOnChange(fns: seq<Callback>)
    ensures |RunLog(None, fns)| == Changes(fns)
  {
    if |fns| > 0 {
      RunFromHolder(fns[0], fns[1..]);
      assert [fns[0]] + fns[1..] == fns;
    }
  }

  lemma {:induction false} RunFromHolder(holder: Callback, rest: seq<Callback>)
    ensures |RunLog(Some(holder), rest)| == Changes([holder] + rest)
    decreases |rest|
  {
    if |rest| > 0 {
      RunFromHolder(rest[0], rest[1..]);
      assert ([holder] + rest)[1..] == [rest[0]] + rest[1..];
    }
  }

  class AccordionContext {
    /** `current.value`. */
    var current: Option<Callback>
    /** The callbacks invoked so far, in order. */
    var invoked: seq<Callback>

    constructor ()
      ensures current == None && invoked == []
    {
      current := None;
      invoked := [];
    }

    /** `setCurrent(fn)`: closes the previous holder when it is a different callback, then holds `fn`. */
    method SetCurrent(fn: Callback)
      modifies this
      ensures current == Some(fn)
      ensures invoked == old(invoked) + Displaced(old(current), fn)
    {
      if current.Some? && current.value != fn {
        invoked := invoked + [current.value];
      }
      current := Some(fn);
    }

    /**
     * The calls `setCurrent(fns[0])`, ..., `setCurrent(fns[|fns| - 1])` in
     * order: the callbacks invoked are `RunLog` of the run, so from a fresh
     * context their number is `Changes(fns)`.
     */
    method SetCurrentRun(fns: seq<Callback>)
      modifies this
      ensures current == Held(old(current), fns)
      ensures invoked == old(invoked) + RunLog(old(current), fns)
    {
      for k := 0 to |fns|
        invariant current == Held(old(current), fns[..k])
        invariant invoked == old(invoked) + RunLog(old(current), fns[..k])
      {
        RunLogSnoc(old(current), fns[..k], fns[k]);
        assert fns[..k + 1] == fns[..k] + [fns[k]];
        SetCurrent(fns[k]);
      }
      assert fns[..|fns|] == fns;
    }
  }
}
