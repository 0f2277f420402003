/** The input handler of control/input.js: it records the six movement
    keys, toggles the GUI on space, and while the GUI has focus turns the
    camera with the mouse and scales its speed with the wheel. The GUI's
    focus is a parameter. */
module Input {
  import opened CameraControl

  class Input {
    const camera: Camera
    var keyStates: map<string, bool>
    /** How many times the GUI was asked to toggle. */
    var guiToggles: nat

    /** `new Input(camera, gui)`: no key recorded. */
    constructor (camera: Camera)
      ensures this.camera == camera && keyStates == map[] && guiToggles == 0
    {
      this.camera := camera;
      keyStates := map[];
      guiToggles := 0;
    }

    /** `keyboard_press(key)`: exactly the keys w, s, a, d, q and e are
        recorded as held; space toggles the GUI; any other key changes
        nothing. */
    method KeyboardPress(key: string)
      modifies this`keyStates, this`guiToggles
      ensures keyStates == if MovementKey(key) then old(keyStates)[key := true] else old(keyStates)
      ensures guiToggles == if key == " " then old(guiToggles) + 1 else old(guiToggles)
    {
      if MovementKey(key) {
        keyStates := keyStates[key := true];
      } else if key == " " {
        guiToggles := guiToggles + 1;
      }
    }

    /** `keyboard_release(key)`: the same six keys are recorded as
        released. */
    method KeyboardRelease(key: string)
      modifies this`keyStates
      ensures keyStates == if MovementKey(key) then old(keyStates)[key := false] else old(keyStates)
    {
      if MovementKey(key) {
        keyStates := keyStates[key := false];
      }
    }

    /** `mouse_move(event)`: the camera turns by the mouse movement, only
        while the GUI has focus. */
    method MouseMove(focused: bool, movementX: real, movementY: real)
      modifies camera`rotation
      ensures camera.rotation ==
        if focused then Rotated(old(camera.rotation), movementX, movementY, camera.sensitivity, camera.fov)
        else old(camera.rotation)
    {
      if focused {
        camera.UpdateRotation(movementX, movementY);
      }
    }

    /** `mouse_scroll(event)`: only while the GUI has focus, scrolling up
        multiplies the camera's speed by 1.25 and scrolling down divides it
        by 1.25. */
    method MouseScroll(focused: bool, deltaY: real)
      modifies camera`speed
      ensures camera.speed == if focused then Scrolled(old(camera.speed), deltaY) else old(camera.speed)
    {
      if focused {
        camera.speed := Scrolled(camera.speed, deltaY);
      }
    }
  }
}
