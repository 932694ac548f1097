/**
 * `useTabContext`: the list of tab records held by a tab group. Every
 * operation replaces the list with a new one; `set` also notifies each tab
 * through its `setState` callback while it builds the new list.
 */
module Tabs {

  /**
   * A tab record. `owner` stands for the tab component that registered it:
   * its `setState` and `select` callbacks and its props.
   */
  datatype Tab = Tab(id: string, active: bool, disabled: bool, owner: nat)

  /** A call `setState(state)` on the callback of tab `owner`. */
  datatype Notice = SetState(owner: nat, state: bool)

  /** The list `set(id)` builds: exactly the tabs with that id are active. */
  function Activated(tabs: seq<Tab>, id: string): (r: seq<Tab>)
    ensures |r| == |tabs|
    ensures forall i :: 0 <= i < |r| ==> (r[i].active <==> tabs[i].id == id)
    ensures forall i :: 0 <= i < |r| ==>
      r[i].id == tabs[i].id && r[i].disabled == tabs[i].disabled && r[i].owner == tabs[i].owner
  {
    seq(|tabs|, i requires 0 <= i < |tabs| => tabs[i].(active := tabs[i].id == id))
  }

  /** The notification `set(id)` sends for one tab, if any. */
  function NoticeFor(t: Tab, id: string): (r: seq<Notice>)
    ensures |r| <= 1
    ensures forall n :: n in r ==> n.owner == t.owner
    ensures SetState(t.owner, true) in r <==> t.id == id
    ensures SetState(t.owner, false) in r <==> t.id != id && t.active
  {
    if t.id == id then [SetState(t.owner, true)]
    else if t.active then [SetState(t.owner, false)]
    else []
  }

  /** The notifications `set(id)` sends, tab by tab in list order. */
  function Notices(tabs: seq<Tab>, id: string): (r: seq<Notice>)
    ensures |r| <= |tabs|
  {
    if |tabs| == 0 then [] else Notices(tabs[..|tabs| - 1], id) + NoticeFor(tabs[|tabs| - 1], id)
  }

  /** How many tabs `set(id)` has something to tell: those that match `id` or were active. */
  function Told(tabs: seq<Tab>, id: string): nat
  {
    if |tabs| == 0 then 0
    else Told(tabs[..|tabs| - 1], id) + (if tabs[|tabs| - 1].id == id || tabs[|tabs| - 1].active then 1 else 0)
  }

  /**
   * `set(id)` sends exactly as many notifications as there are tabs to tell,
   * one per such tab; with `NoticesSent` each of them gets exactly one.
   */
  lemma {:induction false} NoticesCount(tabs: seq<Tab>, id: string)
    ensures |Notices(tabs, id)| == Told(tabs, id)
  {
    if |tabs| > 0 {
      NoticesCount(tabs[..|tabs| - 1], id);
    }
  }

  /**
   * `set(id)` tells every matching tab `setState(true)`, and tells
   * `setState(false)` to exactly the non-matching tabs that were active.
   */
  lemma {:induction false} NoticesSent(tabs: seq<Tab>, id: string, o: nat)
    ensures SetState(o, true) in Notices(tabs, id) <==>
      exists i :: 0 <= i < |tabs| && tabs[i].id == id && tabs[i].owner == o
    ensures SetState(o, false) in Notices(tabs, id) <==>
      exists i :: 0 <= i < |tabs| && tabs[i].id != id && tabs[i].active && tabs[i].owner == o
  {
    if |tabs| > 0 {
      var init, last := tabs[..|tabs| - 1], tabs[|tabs| - 1];
      NoticesSent(init, id, o);
      assert forall i :: 0 <= i < |init| ==> init[i] == tabs[i];
      if exists i :: 0 <= i < |tabs| && tabs[i].id == id && tabs[i].owner == o {
        var i :| 0 <= i < |tabs| && tabs[i].id == id && tabs[i].owner == o;
        if i < |init| { assert init[i] == tabs[i]; }
      }
      if exists i :: 0 <= i < |tabs| && tabs[i].id != id && tabs[i].active && tabs[i].owner == o {
        var i :| 0 <= i < |tabs| && tabs[i].id != id && tabs[i].active && tabs[i].owner == o;
        if i < |init| { assert init[i] == tabs[i]; }
      }
    }
  }

  /** Every notification goes to a tab of the list. */
  lemma {:induction false} NoticesToListedTabs(tabs: seq<Tab>, id: string, n: Notice)
    requires n in Notices(tabs, id)
    ensures exists i :: 0 <= i < |tabs| && tabs[i].owner == n.owner
  {
    NoticesSent(tabs, id, n.owner);
  }

  /**
   * Selecting the same id again keeps the list, and then only the matching
   * tabs are told anything: every notice is `setState(true)`.
   */
  lemma SetAgain(tabs: seq<Tab>, id: string, n: Notice)
    ensures Activated(Activated(tabs, id), id) == Activated(tabs, id)
    ensures n in Notices(Activated(tabs, id), id) ==> n.state
  {
    var once := Activated(tabs, id);
    if n in Notices(once, id) && !n.state {
      NoticesSent(once, id, n.owner);
    }
  }

  /** The list `disable(id)` (`flag` true) or `enable(id)` (`flag` false) builds. */
  function WithDisabled(tabs: seq<Tab>, id: string, flag: bool): (r: seq<Tab>)
    ensures |r| == |tabs|
    ensures forall i :: 0 <= i < |r| ==> r[i].disabled == (if tabs[i].id == id then flag else tabs[i].disabled)
    ensures forall i :: 0 <= i < |r| ==>
      r[i].id == tabs[i].id && r[i].active == tabs[i].active && r[i].owner == tabs[i].owner
  {
    seq(|tabs|, i requires 0 <= i < |tabs| => tabs[i].(disabled := if tabs[i].id == id then flag else tabs[i].disabled))
  }

  /** `enable` and `disable` are idempotent. */
  lemma WithDisabledIdempotent(tabs: seq<Tab>, id: string, flag: bool)
    ensures WithDisabled(WithDisabled(tabs, id, flag), id, flag) == WithDisabled(tabs, id, flag)
  {
  }

  class TabContext {
    /** `tabs.value`. */
    var tabs: seq<Tab>
    /** The `setState` calls made so far, in order. */
    var notices: seq<Notice>

    constructor ()
      ensures tabs == [] && notices == []
    {
      tabs := [];
      notices := [];
    }

    /** `add(tab)`: appends the record. */
    method Add(tab: Tab)
      modifies this
      ensures tabs == old(tabs) + [tab] && notices == old(notices)
    {
      tabs := tabs + [tab];
    }

    /** `set(id)`: activates exactly the matching tabs, notifying them as it goes. */
    method Set(id: string)
      modifies this
      ensures tabs == Activated(old(tabs), id)
      ensures notices == old(notices) + Notices(old(tabs), id)
    {
      var next: seq<Tab> := [];
      var sent: seq<Notice> := [];
      var i := 0;
      while i < |tabs|
        invariant 0 <= i <= |tabs|
        invariant |next| == i
        invariant forall k :: 0 <= k < i ==> next[k] == tabs[k].(active := tabs[k].id == id)
        invariant sent == Notices(tabs[..i], id)
      {
        var tab := tabs[i];
        assert tabs[..i + 1][..i] == tabs[..i];
        if tab.id == id {
          sent := sent + [SetState(tab.owner, true)];
          next := next + [tab.(active := true)];
        } else {
          if tab.active {
            sent := sent + [SetState(tab.owner, false)];
          }
          next := next + [tab.(active := false)];
        }
        i := i + 1;
      }
      assert tabs[..i] == tabs;
      tabs := next;
      notices := notices + sent;
    }

    /** `disable(id)`. */
    method Disable(id: string)
      modifies this
      ensures tabs == WithDisabled(old(tabs), id, true) && notices == old(notices)
    {
      tabs := WithDisabled(tabs, id, true);
    }

    /** `enable(id)`. */
    method Enable(id: string)
      modifies this
      ensures tabs == WithDisabled(old(tabs), id, false) && notices == old(notices)
    {
      tabs := WithDisabled(tabs, id, false);
    }
  }
}
