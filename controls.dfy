/** The keyboard and mouse rules the GUIs and the key manager share: the
    map of keys last pressed or released, the array of mouse buttons, the
    "is anything held" scans over them, and the arrow keys' change of
    `render_scale`. */
module Controls {
  import opened Numbers

  /** `render_scale` after a key press: ArrowUp lowers it by one but not
      below 1, ArrowDown raises it by one but not above 16; while the user
      is typing, and for every other key, it stays. */
  function ArrowScale(rs: real, key: string, typing: bool): (r: real)
    ensures typing || (key != "ArrowUp" && key != "ArrowDown") ==> r == rs
    ensures !typing && key == "ArrowUp" ==> r >= 1.0 && (rs >= 2.0 ==> r == rs - 1.0) && (rs < 2.0 ==> r == 1.0)
    ensures !typing && key == "ArrowDown" ==> r <= 16.0 && (rs <= 15.0 ==> r == rs + 1.0) && (rs > 15.0 ==> r == 16.0)
    ensures 1.0 <= rs <= 16.0 ==> 1.0 <= r <= 16.0
    ensures rs > 0.0 ==> r > 0.0
  {
    if typing then rs
    else if key == "ArrowUp" then MaxReal(rs - 1.0, 1.0)
    else if key == "ArrowDown" then MinReal(rs + 1.0, 16.0)
    else rs
  }

  /** Inside [2, 16], ArrowUp then ArrowDown gives the scale back, and
      inside [1, 15] so does ArrowDown then ArrowUp. */
  lemma ArrowsUndo(rs: real)
    ensures 2.0 <= rs <= 16.0 ==> ArrowScale(ArrowScale(rs, "ArrowUp", false), "ArrowDown", false) == rs
    ensures 1.0 <= rs <= 15.0 ==> ArrowScale(ArrowScale(rs, "ArrowDown", false), "ArrowUp", false) == rs
  {
  }

  /** A key is held when the map records it as pressed. */
  predicate AnyKey(keys: map<string, bool>)
  {
    exists k :: k in keys && keys[k]
  }

  /** `keyPressed()` / `isKeyPressed()`: a scan of every recorded key. */
  method KeyPressed(keys: map<string, bool>) returns (pressed: bool)
    ensures pressed <==> AnyKey(keys)
  {
    pressed := false;
    var rest := keys.Keys;
    while rest != {}
      invariant rest <= keys.Keys
      invariant pressed <==> exists k :: k in keys.Keys - rest && keys[k]
      decreases |rest|
    {
      var k :| k in rest;
      if keys[k] {
        pressed := true;
      }
      rest := rest - {k};
    }
  }

  /** Some button is held. Entries the array never had are holes, which
      `forEach` skips, so they count as not held. */
  predicate AnyButton(buttons: seq<bool>)
  {
    exists i :: 0 <= i < |buttons| && buttons[i]
  }

  /** `mousePressed()` / `isMousePressed()`: a scan of the button array. */
  method MousePressed(buttons: seq<bool>) returns (pressed: bool)
    ensures pressed <==> AnyButton(buttons)
  {
    pressed := false;
    var i := 0;
    while i < |buttons|
      invariant 0 <= i <= |buttons|
      invariant pressed <==> exists j :: 0 <= j < i && buttons[j]
    {
      if buttons[i] {
        pressed := true;
      }
      i := i + 1;
    }
  }

  /** `mouse_states[button] = down`: a JavaScript array grows to take an
      index past its end, leaving holes in between. */
  function Pressing(buttons: seq<bool>, button: nat, down: bool): (r: seq<bool>)
    ensures |r| == if button < |buttons| then |buttons| else button + 1
    ensures r[button] == down
    ensures forall i :: 0 <= i < |r| && i != button ==> r[i] == (i < |buttons| && buttons[i])
  {
    if button < |buttons| then buttons[button := down]
    else buttons + seq(button - |buttons|, _ => false) + [down]
  }

  /** Pressing a button holds it; pressing and releasing one button, with
      none held before, leaves none held. */
  lemma PressRelease(buttons: seq<bool>, button: nat)
    ensures AnyButton(Pressing(buttons, button, true))
    ensures !AnyButton(buttons) ==> !AnyButton(Pressing(Pressing(buttons, button, true), button, false))
  {
    var p := Pressing(buttons, button, true);
    assert p[button];
    if !AnyButton(buttons) {
      var q := Pressing(p, button, false);
      forall i | 0 <= i < |q| ensures !q[i] {
        if i != button {
          assert q[i] == (i < |p| && p[i]);
        }
      }
    }
  }

  /** The five buttons a mouse is assumed to have, none held. */
  const NoButtons: seq<bool> := [false, false, false, false, false]
}
