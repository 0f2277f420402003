/** The tab bar the GUIs share: the wheel steps the selected tab, falling
    off either end to "no tab", and a chosen child of the menu is shown
    while every other child is hidden. */
module Tabs {
  import opened Wrappers
  import opened Numbers

  /** `delta > 0 ? -1 : 1`: scrolling down (positive delta) goes back one
      tab, any other delta forward one. */
  function ScrollStep(delta: real): (step: int)
    ensures step == -1 <==> delta > 0.0
    ensures step == 1 <==> delta <= 0.0
  {
    if delta > 0.0 then -1 else 1
  }

  /** `scrollTab(delta)`: the tab to switch to. From no tab, a step back
      goes to the last tab and a step forward to the first; stepping back
      from the first tab or forward from the last leaves no tab; otherwise
      the tab moves by the step, with the language's remainder. */
  function ScrollTarget(current: Option<int>, delta: real, count: nat): (t: Option<int>)
    requires count > 0
  {
    var step := ScrollStep(delta);
    if current.None? && step < 0 then Some(count - 1)
    else if current.None? && step > 0 then Some(0)
    else if current.Some? && !(current.value == 0 && step < 0) && !(current.value == count - 1 && step > 0)
    then Some(JsRem(current.value + step, count))
    else None
  }

  /** A tab that is none or one of the `count` tabs. */
  predicate InRange(t: Option<int>, count: nat)
  {
    t.None? || 0 <= t.value < count
  }

  /** From no tab or a tab in range, scrolling lands on no tab or a tab in
      range, and lands on no tab exactly when it steps off an end; from a
      tab in range it moves by exactly one. */
  lemma ScrollInRange(current: Option<int>, delta: real, count: nat)
    requires count > 0 && InRange(current, count)
    ensures InRange(ScrollTarget(current, delta, count), count)
    ensures ScrollTarget(current, delta, count).None? <==>
      (current == Some(0) && delta > 0.0) || (current == Some(count - 1) && delta <= 0.0)
    ensures current.Some? && ScrollTarget(current, delta, count).Some? ==>
      ScrollTarget(current, delta, count).value == current.value + ScrollStep(delta)
  {
    if current.Some? {
      var n := current.value + ScrollStep(delta);
      if !(current.value == 0 && delta > 0.0) && !(current.value == count - 1 && delta <= 0.0) {
        assert 0 <= n < count;
        assert JsRem(n, count) == n % count == n;
      }
    }
  }

  /** One step forward and one step back return to where they started,
      whether that is a tab in range or no tab, and so does one step back
      and one forward. */
  lemma ScrollBack(current: Option<int>, count: nat)
    requires count > 0 && InRange(current, count)
    ensures ScrollTarget(ScrollTarget(current, -1.0, count), 1.0, count) == current
    ensures ScrollTarget(ScrollTarget(current, 1.0, count), -1.0, count) == current
  {
    ScrollInRange(current, -1.0, count);
    ScrollInRange(current, 1.0, count);
    ScrollInRange(ScrollTarget(current, -1.0, count), 1.0, count);
    ScrollInRange(ScrollTarget(current, 1.0, count), -1.0, count);
  }

  /** The class list `switchAttribute` leaves on one child: the chosen
      child gets `attrTrue` added and then `attrFalse` removed, every other
      child `attrTrue` removed and then `attrFalse` added; an undefined
      attribute is skipped. So with two distinct attributes the chosen
      child has `attrTrue` and not `attrFalse` and every other child the
      reverse, with only `attrFalse` a child has it exactly when it is not
      chosen, and no other class changes. */
  function Switched(classes: set<string>, chosen: bool, attrTrue: Option<string>, attrFalse: Option<string>): (r: set<string>)
    ensures attrTrue.Some? && attrFalse.Some? && attrTrue != attrFalse ==>
      (attrTrue.value in r <==> chosen) && (attrFalse.value in r <==> !chosen)
    ensures attrTrue.None? && attrFalse.Some? ==> (attrFalse.value in r <==> !chosen)
    ensures attrTrue.Some? && attrFalse.None? ==> (attrTrue.value in r <==> chosen)
    ensures forall x :: (attrTrue.None? || x != attrTrue.value) && (attrFalse.None? || x != attrFalse.value) ==>
      (x in r <==> x in classes)
  {
    var t := if attrTrue.Some? then {attrTrue.value} else {};
    var f := if attrFalse.Some? then {attrFalse.value} else {};
    if chosen then (classes + t) - f else (classes - t) + f
  }

  /** `switchAttribute(parent, indexTrue, attrTrue, attrFalse)` over the
      class lists of the parent's element children, in order. */
  method SwitchAttribute(children: array<set<string>>, indexTrue: int, attrTrue: Option<string>, attrFalse: Option<string>)
    modifies children
    ensures forall i :: 0 <= i < children.Length ==>
      children[i] == Switched(old(children[i]), i == indexTrue, attrTrue, attrFalse)
  {
    var i := 0;
    while i < children.Length
      invariant 0 <= i <= children.Length
      invariant forall j :: 0 <= j < i ==> children[j] == Switched(old(children[j]), j == indexTrue, attrTrue, attrFalse)
      invariant forall j :: i <= j < children.Length ==> children[j] == old(children[j])
    {
      var classes := children[i];
      if i == indexTrue {
        if attrTrue.Some? {
          classes := classes + {attrTrue.value};
        }
        if attrFalse.Some? {
          classes := classes - {attrFalse.value};
        }
      } else {
        if attrTrue.Some? {
          classes := classes - {attrTrue.value};
        }
        if attrFalse.Some? {
          classes := classes + {attrFalse.value};
        }
      }
      children[i] := classes;
      i := i + 1;
    }
  }

  /** The menu child `switchTab` shows: the first for no tab, else the one
      after the tab's index. */
  function MenuIndex(tab: Option<int>): (i: int)
    ensures tab.None? ==> i == 0
    ensures tab.Some? && tab.value >= 0 ==> i == tab.value + 1 && i > 0
  {
    if tab.None? then 0 else tab.value + 1
  }
}
