/** The input handler of raymarcher/key.js over the WebGL renderer: it
    records keys and mouse buttons, steps `render_scale` with the arrow
    keys, flips the GUI's auto refresh with Tab, and restarts the
    accumulation on mouse release and on mouse moves that steer the view.
    The GUI's answer to "is the user typing" and the camera's `enabled`
    flag are parameters. */
module KeyManager {
  import opened Values
  import opened Uniforms
  import opened Controls
  import Gl = WebGlManager

  /** A record that fits its buffer holds a positive `render_scale`. */
  lemma FitsScale(u: Record, n: nat)
    requires Gl.Fits(u, n)
    ensures Get(u, "render_scale").Some? && Get(u, "render_scale").value.Scalar?
    ensures ScalarOf(u, "render_scale") > 0.0
  {
    assert Gl.ShapeOf("render_scale").Some?;
  }

  class KEYManager {
    const gpu: Gl.WebGLManager
    var keyStates: map<string, bool>
    var mouseStates: seq<bool>
    /** The GUI's `auto_refresh`. */
    var autoRefresh: bool
    /** How many times the GUI was asked to toggle fullscreen. */
    var fullscreenToggles: nat

    /** `new KEYManager(gpu, gui, camera)`: no key recorded, five buttons
        up. */
    constructor (gpu: Gl.WebGLManager, autoRefresh: bool)
      ensures this.gpu == gpu && keyStates == map[] && mouseStates == NoButtons
      ensures this.autoRefresh == autoRefresh && fullscreenToggles == 0
    {
      this.gpu := gpu;
      keyStates := map[];
      mouseStates := NoButtons;
      this.autoRefresh := autoRefresh;
      fullscreenToggles := 0;
    }

    /** `keyboardPress(event)`: the key is recorded even when the user is
        typing; the arrows then step `render_scale`, F11 toggles fullscreen
        and Tab flips auto refresh, the arrows and Tab only when not
        typing. */
    method KeyboardPress(key: string, typing: bool)
      requires gpu.Valid()
      modifies this`keyStates, this`autoRefresh, this`fullscreenToggles, gpu`uniforms
      ensures gpu.Valid()
      ensures keyStates == old(keyStates)[key := true]
      ensures Get(gpu.uniforms, "render_scale").Some? && Get(gpu.uniforms, "render_scale").value.Scalar?
      ensures ScalarOf(gpu.uniforms, "render_scale") == ArrowScale(old(ScalarOf(gpu.uniforms, "render_scale")), key, typing)
      ensures forall k :: k != "render_scale" ==> Get(gpu.uniforms, k) == Get(old(gpu.uniforms), k)
      ensures autoRefresh == if key == "Tab" && !typing then !old(autoRefresh) else old(autoRefresh)
      ensures fullscreenToggles == if key == "F11" then old(fullscreenToggles) + 1 else old(fullscreenToggles)
    {
      FitsScale(gpu.uniforms, 44);
      keyStates := keyStates[key := true];
      if key == "ArrowUp" || key == "ArrowDown" {
        if !typing {
          var v := Scalar(ArrowScale(ScalarOf(gpu.uniforms, "render_scale"), key, typing));
          var u := Set(gpu.uniforms, "render_scale", v);
          Gl.SetKeeps(gpu.uniforms, u, 44, "render_scale", v);
          gpu.uniforms := u;
        }
      } else if key == "F11" {
        fullscreenToggles := fullscreenToggles + 1;
      } else if key == "Tab" {
        if !typing {
          autoRefresh := !autoRefresh;
        }
      }
    }

    /** `keyboardRelease(event)`. */
    method KeyboardRelease(key: string)
      modifies this`keyStates
      ensures keyStates == old(keyStates)[key := false]
    {
      keyStates := keyStates[key := false];
    }

    /** `mousePress(event)`. */
    method MousePress(button: nat)
      modifies this`mouseStates
      ensures mouseStates == Pressing(old(mouseStates), button, true)
    {
      mouseStates := Pressing(mouseStates, button, true);
    }

    /** The document's `mouseup`: `mouseRelease(event)`, then a refresh
        when auto refresh is on. */
    method MouseUp(button: nat)
      requires gpu.Valid()
      modifies this`mouseStates, gpu`uniforms
      ensures gpu.Valid()
      ensures mouseStates == Pressing(old(mouseStates), button, false)
      ensures gpu.uniforms == if autoRefresh then Set(old(gpu.uniforms), "temporal_counter", Scalar(1.0)) else old(gpu.uniforms)
    {
      mouseStates := Pressing(mouseStates, button, false);
      if autoRefresh {
        gpu.Refresh();
      }
    }

    /** The document's `mousemove`: a refresh when a button is held or the
        camera is steering, and auto refresh is on. */
    method MouseMove(cameraEnabled: bool)
      requires gpu.Valid()
      modifies gpu`uniforms
      ensures gpu.Valid()
      ensures gpu.uniforms ==
        if (AnyButton(mouseStates) || cameraEnabled) && autoRefresh
        then Set(old(gpu.uniforms), "temporal_counter", Scalar(1.0)) else old(gpu.uniforms)
    {
      var held := MousePressed();
      if (held || cameraEnabled) && autoRefresh {
        gpu.Refresh();
      }
    }

    /** `keyPressed()`. */
    method KeyPressed() returns (pressed: bool)
      ensures pressed <==> AnyKey(keyStates)
    {
      pressed := Controls.KeyPressed(keyStates);
    }

    /** `mousePressed()`. */
    method MousePressed() returns (pressed: bool)
      ensures pressed <==> AnyButton(mouseStates)
    {
      pressed := Controls.MousePressed(mouseStates);
    }
  }
}
