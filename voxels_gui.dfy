/** The GUI manager of voxels/gui.js over the voxel renderer: the key and
    mouse maps, the arrow keys' `render_scale` step followed by
    `synchronize`, the resolution widget, and the tab bar. The DOM's
    answers (typing, fullscreen, the canvas's client size) are
    parameters. */
module VoxelsGui {
  import opened Wrappers
  import opened Values
  import opened Uniforms
  import opened Controls
  import opened Tabs
  import Widgets
  import Vx = VoxelsGpu
  import Lifecycle

  /** The number of tabs in the tab bar: General alone. */
  const TabCount: nat := 1

  /** A record that fits its buffer holds a positive `render_scale`. */
  lemma FitsScale(u: Record, n: nat)
    requires Vx.Fits(u, n)
    ensures Get(u, "render_scale").Some? && Get(u, "render_scale").value.Scalar?
    ensures ScalarOf(u, "render_scale") > 0.0
  {
    assert Vx.ShapeOf("render_scale").Some?;
  }

  /** The record after a key press with client size `w`×`h`: an arrow,
      when the user is not typing, steps `render_scale` and then
      synchronizes; any other key leaves the record. */
  function Pressed(u: Record, key: string, typing: bool, w: nat, h: nat): Record
    requires Get(u, "render_scale").Some? && Get(u, "render_scale").value.Scalar?
  {
    if (key == "ArrowUp" || key == "ArrowDown") && !typing
    then Vx.Synced(Set(u, "render_scale", Scalar(ArrowScale(ScalarOf(u, "render_scale"), key, typing))), w, h)
    else u
  }

  /** An arrow press keeps the record fitting its buffer, stores the
      stepped scale and the capped client size, and leaves every other
      field. */
  lemma PressedFits(u: Record, n: nat, key: string, typing: bool, w: nat, h: nat)
    requires Vx.Fits(u, n)
    ensures HasScale(u)
    ensures Vx.Fits(Pressed(u, key, typing, w, h), n)
    ensures ScalarOf(Pressed(u, key, typing, w, h), "render_scale") == ArrowScale(ScalarOf(u, "render_scale"), key, typing)
    ensures (key == "ArrowUp" || key == "ArrowDown") && !typing ==>
      Get(Pressed(u, key, typing, w, h), "canvas_size") == Get(Vx.Synced(u, w, h), "canvas_size")
    ensures forall k :: k != "render_scale" && k != "canvas_size" ==> Get(Pressed(u, key, typing, w, h), k) == Get(u, k)
  {
    FitsScale(u, n);
    if (key == "ArrowUp" || key == "ArrowDown") && !typing {
      var v := Scalar(ArrowScale(ScalarOf(u, "render_scale"), key, typing));
      var u1 := Set(u, "render_scale", v);
      Vx.SetKeeps(u, u1, n, "render_scale", v);
      var size := Lifecycle.Capped(w, h);
      var c := Value.Vec([size.0 as real, size.1 as real]);
      Vx.SetKeeps(u1, Vx.Synced(u1, w, h), n, "canvas_size", c);
    }
  }

  /** A number `render_scale`, which `Pressed` reads. */
  predicate HasScale(u: Record)
  {
    Get(u, "render_scale").Some? && Get(u, "render_scale").value.Scalar?
  }

  class GUIManager {
    const gpu: Vx.WebGLManager
    var currentTab: Option<int>
    var keyStates: map<string, bool>
    var mouseStates: seq<bool>
    /** How many times fullscreen was toggled with F11. */
    var fullscreenToggles: nat
    /** Whether each tab button has the "active" class. */
    const tabs: array<bool>
    /** The class lists of the menu's element children: the first is
        shown with no tab, the others one per tab. */
    const menu: array<set<string>>
    /** Whether the menu element itself has the "hidden" class. */
    var menuHidden: bool

    /** `new GUIManager(canvas, gpu, camera, storage)`: no key recorded,
        five buttons up; the tab switch is built with its one tab active
        and reports it, which selects that tab without touching the
        buttons again. */
    constructor (gpu: Vx.WebGLManager, menu: array<set<string>>)
      modifies menu
      ensures this.gpu == gpu && this.menu == menu
      ensures keyStates == map[] && mouseStates == NoButtons && fullscreenToggles == 0
      ensures fresh(tabs) && tabs[..] == Widgets.OnlyAt(TabCount, Some(0))
      ensures currentTab == Some(0) && !menuHidden
      ensures forall i :: 0 <= i < menu.Length ==>
        menu[i] == Switched(old(menu[i]), i == 1, None, Some("hidden"))
    {
      this.gpu := gpu;
      this.menu := menu;
      currentTab := Some(0);
      keyStates := map[];
      mouseStates := NoButtons;
      fullscreenToggles := 0;
      tabs := new bool[TabCount](i => i == 0);
      menuHidden := false;
      new;
      assert tabs[..] == Widgets.OnlyAt(TabCount, Some(0));
      SwitchTab(Some(0), false, false);
    }

    /** `switchTab(value, updateButtons)` with `fullscreen` the document's
        fullscreen state: the buttons show `value` when asked to; the
        menu is shown, except with no tab in fullscreen; the menu child
        for `value` loses "hidden" and every other child gains it. */
    method SwitchTab(value: Option<int>, updateButtons: bool, fullscreen: bool)
      modifies tabs, menu, this`currentTab, this`menuHidden
      ensures currentTab == value
      ensures menuHidden <==> value.None? && fullscreen
      ensures tabs[..] == if updateButtons then Widgets.OnlyAt(tabs.Length, value) else old(tabs[..])
      ensures forall i :: 0 <= i < menu.Length ==>
        menu[i] == Switched(old(menu[i]), i == MenuIndex(value), None, Some("hidden"))
    {
      if updateButtons {
        Widgets.SetIndex(tabs, value);
      }
      menuHidden := false;
      currentTab := value;
      if value.None? {
        if fullscreen {
          menuHidden := true;
        }
        SwitchAttribute(menu, 0, None, Some("hidden"));
      } else {
        SwitchAttribute(menu, value.value + 1, None, Some("hidden"));
      }
    }

    /** The fullscreen change events: with no tab selected the menu is
        hidden exactly in fullscreen; with a tab nothing changes. */
    method FullscreenChange(fullscreen: bool)
      modifies this`menuHidden
      ensures menuHidden == if currentTab.None? then fullscreen else old(menuHidden)
    {
      if !fullscreen && currentTab.None? {
        menuHidden := false;
      } else if fullscreen && currentTab.None? {
        menuHidden := true;
      }
    }

    /** The document's `keydown` with the canvas's client size `w`×`h`:
        the key is recorded even while typing; when not typing the arrows
        step `render_scale` and resynchronize, so the canvas takes the new
        scale; F11 toggles fullscreen. */
    method KeyDown(key: string, typing: bool, w: nat, h: nat)
      requires gpu.Valid()
      modifies this`keyStates, this`fullscreenToggles, gpu`uniforms, gpu`canvasPixels
      ensures gpu.Valid()
      ensures keyStates == old(keyStates)[key := true]
      ensures HasScale(old(gpu.uniforms)) && gpu.uniforms == Pressed(old(gpu.uniforms), key, typing, w, h)
      ensures (key == "ArrowUp" || key == "ArrowDown") && !typing ==>
        gpu.canvasPixels == Vx.ScaledSize(VecOf(gpu.uniforms, "canvas_size"), ScalarOf(gpu.uniforms, "render_scale"))
      ensures !((key == "ArrowUp" || key == "ArrowDown") && !typing) ==> gpu.canvasPixels == old(gpu.canvasPixels)
      ensures fullscreenToggles == if key == "F11" then old(fullscreenToggles) + 1 else old(fullscreenToggles)
    {
      FitsScale(gpu.uniforms, 40);
      keyStates := keyStates[key := true];
      if key == "ArrowUp" || key == "ArrowDown" {
        if !typing {
          var v := Scalar(ArrowScale(ScalarOf(gpu.uniforms, "render_scale"), key, typing));
          var u := Set(gpu.uniforms, "render_scale", v);
          Vx.SetKeeps(gpu.uniforms, u, 40, "render_scale", v);
          gpu.uniforms := u;
          gpu.Synchronize(w, h);
        }
      } else if key == "F11" {
        fullscreenToggles := fullscreenToggles + 1;
      }
    }

    /** The "Resolution division" widget's callback: `render_scale` takes
        the widget's value and the renderer resynchronizes. */
    method SetResolution(value: real, w: nat, h: nat)
      requires gpu.Valid() && value > 0.0
      modifies gpu`uniforms, gpu`canvasPixels
      ensures gpu.Valid()
      ensures gpu.uniforms == Vx.Synced(Set(old(gpu.uniforms), "render_scale", Scalar(value)), w, h)
      ensures ScalarOf(gpu.uniforms, "render_scale") == value
      ensures gpu.canvasPixels == Vx.ScaledSize(VecOf(gpu.uniforms, "canvas_size"), value)
    {
      var u := Set(gpu.uniforms, "render_scale", Scalar(value));
      Vx.SetKeeps(gpu.uniforms, u, 40, "render_scale", Scalar(value));
      gpu.uniforms := u;
      gpu.Synchronize(w, h);
    }

    /** The document's `keyup`. */
    method KeyUp(key: string)
      modifies this`keyStates
      ensures keyStates == old(keyStates)[key := false]
    {
      keyStates := keyStates[key := false];
    }

    /** The document's `mousedown`. */
    method MouseDown(button: nat)
      modifies this`mouseStates
      ensures mouseStates == Pressing(old(mouseStates), button, true)
    {
      mouseStates := Pressing(mouseStates, button, true);
    }

    /** The document's `mouseup`: no refresh in this renderer. */
    method MouseUp(button: nat)
      modifies this`mouseStates
      ensures mouseStates == Pressing(old(mouseStates), button, false)
    {
      mouseStates := Pressing(mouseStates, button, false);
    }

    /** `isKeyPressed()`. */
    method IsKeyPressed() returns (pressed: bool)
      ensures pressed <==> AnyKey(keyStates)
    {
      pressed := KeyPressed(keyStates);
    }

    /** `isMousePressed()`. */
    method IsMousePressed() returns (pressed: bool)
      ensures pressed <==> AnyButton(mouseStates)
    {
      pressed := MousePressed(mouseStates);
    }
  }
}
