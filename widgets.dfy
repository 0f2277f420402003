/** The switch and toggle widgets of utility/widgets.js. A switch is a row
    of buttons of which the ones with the "active" class are selected; a
    toggle shows a boolean in its `value` attribute. The callbacks a widget
    is given are recorded as the list of values they were called with. */
module Widgets {
  import opened Wrappers

  /** `switchGetIndex`: the largest index of an active button, or none. */
  function ActiveIndex(active: seq<bool>): (r: Option<nat>)
    ensures r.Some? ==> r.value < |active| && active[r.value] && forall j :: r.value < j < |active| ==> !active[j]
    ensures r.None? ==> forall j :: 0 <= j < |active| ==> !active[j]
  {
    if active == [] then None
    else if active[|active| - 1] then Some(|active| - 1)
    else ActiveIndex(active[..|active| - 1])
  }

  /** The flags `switchSetIndex(k)` leaves on `n` buttons: a button is
      active exactly when its index equals `k` (never, for null). */
  function OnlyAt(n: nat, k: Option<int>): (r: seq<bool>)
    ensures |r| == n
    ensures forall i :: 0 <= i < n ==> (r[i] <==> k == Some(i))
  {
    seq(n, i => k == Some(i))
  }

  /** At most one button is active. */
  predicate AtMostOne(active: seq<bool>)
  {
    forall i, j :: 0 <= i < |active| && 0 <= j < |active| && active[i] && active[j] ==> i == j
  }

  /** Reading the index back after setting it gives the index when it
      names a button, and none otherwise; and setting leaves at most one
      button active. */
  lemma GetAfterSet(n: nat, k: Option<int>)
    ensures ActiveIndex(OnlyAt(n, k)) == if k.Some? && 0 <= k.value < n then Some(k.value) else None
    ensures AtMostOne(OnlyAt(n, k))
  {
    var r := ActiveIndex(OnlyAt(n, k));
    if k.Some? && 0 <= k.value < n {
      assert OnlyAt(n, k)[k.value];
    }
  }

  /** `switchGetIndex(element)`: a scan in which every active button
      overwrites the answer. */
  method GetIndex(buttons: array<bool>) returns (r: Option<nat>)
    ensures r == ActiveIndex(buttons[..])
  {
    r := None;
    var i := 0;
    while i < buttons.Length
      invariant 0 <= i <= buttons.Length
      invariant r == ActiveIndex(buttons[..i])
    {
      assert buttons[..i + 1][..i] == buttons[..i];
      if buttons[i] {
        r := Some(i);
      }
      i := i + 1;
    }
    assert buttons[..buttons.Length] == buttons[..];
  }

  /** `switchSetIndex(element, k)`: every button is made active or not
      by whether its index equals `k`. */
  method SetIndex(buttons: array<bool>, k: Option<int>)
    modifies buttons
    ensures buttons[..] == OnlyAt(buttons.Length, k)
  {
    var i := 0;
    while i < buttons.Length
      invariant 0 <= i <= buttons.Length
      invariant forall j :: 0 <= j < i ==> (buttons[j] <==> k == Some(j))
    {
      buttons[i] := k == Some(i);
      i := i + 1;
    }
  }

  /** `options.indexOf(def)`: the first position of `x`, or −1. */
  function IndexOf(options: seq<string>, x: string): (r: int)
    ensures -1 <= r < |options|
    ensures r >= 0 ==> options[r] == x && forall j :: 0 <= j < r ==> options[j] != x
    ensures r < 0 ==> x !in options
  {
    if options == [] then -1
    else if options[0] == x then 0
    else var r := IndexOf(options[1..], x); if r < 0 then -1 else r + 1
  }

  /** A switch made by `createSwitch`. */
  class Switch {
    const options: seq<string>
    const unselectable: bool
    /** Whether each button has the "active" class. */
    const buttons: array<bool>
    /** The arguments `set` was called with, in order; `None` is null. */
    var calls: seq<Option<int>>

    ghost predicate Valid()
      reads this
    {
      buttons.Length == |options|
    }

    /** `createSwitch(parent, set, options, def, name, unselectable)`: every
        button labelled `def` is active, and `set` is called once with the
        first index of `def`, −1 when no option is `def`. */
    constructor (options: seq<string>, def: string, unselectable: bool)
      ensures Valid() && this.options == options && this.unselectable == unselectable
      ensures fresh(buttons)
      ensures forall i :: 0 <= i < |options| ==> (buttons[i] <==> options[i] == def)
      ensures calls == [Some(IndexOf(options, def))]
    {
      this.options := options;
      this.unselectable := unselectable;
      buttons := new bool[|options|](i requires 0 <= i < |options| => options[i] == def);
      calls := [Some(IndexOf(options, def))];
    }

    /** A click on button `i`: on an active button of an unselectable
        switch every button goes inactive and `set(null)` is called;
        otherwise exactly button `i` becomes active and `set(i)` is
        called. Either way at most one button is active afterwards. */
    method Click(i: nat)
      requires Valid() && i < buttons.Length
      modifies buttons, this`calls
      ensures Valid()
      ensures old(buttons[i]) && unselectable ==> buttons[..] == OnlyAt(buttons.Length, None) && calls == old(calls) + [None]
      ensures !(old(buttons[i]) && unselectable) ==>
        buttons[..] == OnlyAt(buttons.Length, Some(i)) && calls == old(calls) + [Some(i)]
      ensures AtMostOne(buttons[..])
    {
      if buttons[i] && unselectable {
        SetIndex(buttons, None);
        calls := calls + [None];
      } else {
        SetIndex(buttons, None);
        buttons[i] := !buttons[i];
        calls := calls + [Some(i)];
        assert buttons[..] == OnlyAt(buttons.Length, Some(i));
      }
      GetAfterSet(buttons.Length, if buttons[i] then Some(i) else None);
    }
  }

  /** A toggle made by `createToggle`. */
  class Toggle {
    /** The `value` attribute: "true" or "false". */
    var value: bool
    /** The arguments `set` was called with, in order. */
    var calls: seq<bool>

    /** `createToggle(parent, set, get, name)`: the attribute shows what
        `get()` returned; `set` is not called. */
    constructor (got: bool)
      ensures value == got && calls == []
    {
      value := got;
      calls := [];
    }

    /** A click flips the attribute and calls `set` with the new value, so
        two clicks restore the attribute. */
    method Click()
      modifies this
      ensures value == !old(value) && calls == old(calls) + [value]
    {
      if !value {
        calls := calls + [true];
        value := true;
      } else {
        calls := calls + [false];
        value := false;
      }
    }

    /** The `updategui` event: the attribute shows `get()` again; `set` is
        not called. */
    method UpdateGui(got: bool)
      modifies this
      ensures value == got && calls == old(calls)
    {
      value := got;
    }
  }
}
