/** The GUI manager of fractals/gui.js over the WebGL renderer: the key and
    mouse maps, the arrow keys' `render_scale` step, the Tab key's auto
    refresh flip, the refreshes on mouse, wheel and touch events, the tab
    bar, and the SDF switch with its table of preset parameters. The DOM's
    answers (typing, fullscreen, the camera's `enabled` and orbiting flags,
    the text of fetched shader files) are parameters. */
module FractalsGui {
  import opened Wrappers
  import opened Values
  import opened Uniforms
  import opened Controls
  import opened Frames
  import opened Tabs
  import Widgets
  import Gl = WebGlManager
  import FractalsEngine
  import opened Lifecycle

  /** The custom fields the SDF switch writes, in its order. */
  const CustomKeys: seq<string> := ["custom_a", "custom_b", "custom_c", "custom_d", "custom_e"]

  /** The shader file a preset fetches: Mandelbox, Mandelbulb, Koch curve
      and Juliabulb for indices 1 to 4; any other index uses the code typed
      into the editor. */
  function PresetFile(value: int): (f: Option<string>)
    ensures f.Some? <==> 1 <= value <= 4
  {
    if value == 1 then Some("../scripts/fractals/shader/mandelbox.glsl")
    else if value == 2 then Some("../scripts/fractals/shader/mandelbulb.glsl")
    else if value == 3 then Some("../scripts/fractals/shader/kochcurve.glsl")
    else if value == 4 then Some("../scripts/fractals/shader/juliabulb.glsl")
    else None
  }

  /** The five custom parameters of a preset. Every preset sets
      `custom_b` to 1; the custom code and the Koch curve set all five to
      1; only the Mandelbox departs from 1 after the first. */
  function PresetValues(value: int): (vs: seq<real>)
    ensures |vs| == 5 && vs[1] == 1.0
    ensures value != 1 && value != 2 && value != 4 ==> vs == [1.0, 1.0, 1.0, 1.0, 1.0]
    ensures vs[0] != 1.0 <==> value == 1 || value == 2 || value == 4
    ensures value != 1 ==> vs[1..] == [1.0, 1.0, 1.0, 1.0]
  {
    if value == 1 then [-2.0, 1.0, 0.5, 2.0, 2.0]
    else if value == 2 then [5.0, 1.0, 1.0, 1.0, 1.0]
    else if value == 4 then [3.0, 1.0, 1.0, 1.0, 1.0]
    else [1.0, 1.0, 1.0, 1.0, 1.0]
  }

  /** The writes a preset makes to `uniforms`, in its order. */
  function PresetWrites(value: int): seq<(string, Value)>
  {
    var vs := PresetValues(value);
    [("custom_a", Scalar(vs[0])), ("custom_b", Scalar(vs[1])), ("custom_c", Scalar(vs[2])),
     ("custom_d", Scalar(vs[3])), ("custom_e", Scalar(vs[4]))]
  }

  /** After the preset's writes a custom field holds the preset's value and
      every other field is as it was. */
  lemma PresetGet(u: Record, value: int, k: string)
    ensures Get(SetAll(u, PresetWrites(value)), k) ==
      if k in CustomKeys then Some(Scalar(PresetValues(value)[KeyIndex(k)])) else Get(u, k)
  {
    var ws := PresetWrites(value);
    var vs := PresetValues(value);
    GetSetAll(u, ws, k);
    var w1, w2, w3, w4 := ws[..1], ws[..2], ws[..3], ws[..4];
    assert w4[..3] == w3 && w3[..2] == w2 && w2[..1] == w1 && w1[..0] == [];
    assert LastWrite(w1, k) == if k == "custom_a" then Some(Scalar(vs[0])) else None;
    assert LastWrite(w2, k) == if k == "custom_b" then Some(Scalar(vs[1])) else LastWrite(w1, k);
    assert LastWrite(w3, k) == if k == "custom_c" then Some(Scalar(vs[2])) else LastWrite(w2, k);
    assert LastWrite(w4, k) == if k == "custom_d" then Some(Scalar(vs[3])) else LastWrite(w3, k);
    assert LastWrite(ws, k) == if k == "custom_e" then Some(Scalar(vs[4])) else LastWrite(w4, k);
  }

  /** The position of a custom field in `CustomKeys`. */
  function KeyIndex(k: string): (i: nat)
    requires k in CustomKeys
    ensures i < 5 && CustomKeys[i] == k
  {
    if k == "custom_a" then 0 else if k == "custom_b" then 1 else if k == "custom_c" then 2
    else if k == "custom_d" then 3 else 4
  }

  /** The custom field at position i has index i: the keys are
      distinct. */
  lemma KeyIndexOf(i: int)
    requires 0 <= i < 5
    ensures CustomKeys[i] in CustomKeys && KeyIndex(CustomKeys[i]) == i
  {
    assert CustomKeys[1] != CustomKeys[0];
    assert CustomKeys[2] != CustomKeys[0] && CustomKeys[2] != CustomKeys[1];
    assert CustomKeys[3] != CustomKeys[0] && CustomKeys[3] != CustomKeys[1] && CustomKeys[3] != CustomKeys[2];
    assert CustomKeys[4][7] == 'e';
  }

  /** The record after choosing SDF `value`: each custom field holds the
      preset's parameter, every other field is unchanged. */
  function Preset(u: Record, value: int): (r: Record)
  {
    SetAll(u, PresetWrites(value))
  }

  /** Choosing an SDF sets each custom field to the preset's parameter
      and leaves every other field unchanged. */
  lemma PresetSets(u: Record, value: int)
    ensures var r := Preset(u, value);
      (forall i :: 0 <= i < 5 ==> Get(r, CustomKeys[i]) == Some(Scalar(PresetValues(value)[i]))) &&
      (forall k :: k !in CustomKeys ==> Get(r, k) == Get(u, k))
  {
    var r := Preset(u, value);
    forall i | 0 <= i < 5 ensures Get(r, CustomKeys[i]) == Some(Scalar(PresetValues(value)[i])) {
      PresetGet(u, value, CustomKeys[i]);
      KeyIndexOf(i);
    }
    forall k | k !in CustomKeys ensures Get(r, k) == Get(u, k) {
      PresetGet(u, value, k);
    }
  }

  /** The i-th write of a preset sets the i-th custom field. */
  lemma PresetWriteAt(value: int, i: int)
    requires 0 <= i < 5
    ensures |PresetWrites(value)| == 5
    ensures PresetWrites(value)[i] == (CustomKeys[i], Scalar(PresetValues(value)[i]))
  {
  }

  /** Choosing the same SDF twice is choosing it once. */
  lemma PresetTwice(u: Record, value: int)
    ensures Preset(Preset(u, value), value) == Preset(u, value)
  {
    var ws := PresetWrites(value);
    var r := Preset(u, value);
    PresetSets(u, value);
    PresetWriteAt(value, 0);
    forall i | 0 <= i < |ws| ensures Get(r, ws[i].0) == Some(ws[i].1) {
      PresetWriteAt(value, i);
    }
    SetAllUnchanged(r, ws);
  }

  /** The preset's writes keep the record fitting its buffer. */
  lemma PresetFits(u: Record, n: nat, value: int)
    requires Gl.Fits(u, n)
    ensures Gl.Fits(Preset(u, value), n)
  {
    var ws := PresetWrites(value);
    PresetWriteAt(value, 0);
    forall i | 0 <= i < |ws| ensures Gl.ShapeOf(ws[i].0).Some? && Matches(ws[i].1, Gl.ShapeOf(ws[i].0).value) {
      PresetWriteAt(value, i);
    }
    FractalsEngine.SetAllFits(u, n, ws);
  }

  /** The SDF the code editor holds before any preset is chosen: a sphere
      of radius `custom_b`. */
  const EditorSdf: string := "float SDF(vec3 p) {\n\tfloat radius = uniforms.custom_b;\n\treturn length(p) - radius;\n}"

  /** The record the GUI leaves after construction: the shading switch
      reports "Marches" (mode 0), then the SDF switch reports "Custom". */
  function Constructed(u: Record): Record
  {
    Preset(Set(u, "shader_mode", Scalar(0.0)), 0)
  }

  /** After construction the shading mode is 0, every custom field 1 and
      every other field as it was. */
  lemma ConstructedGet(u: Record, k: string)
    ensures Get(Constructed(u), k) ==
      if k == "shader_mode" then Some(Scalar(0.0))
      else if k in CustomKeys then Some(Scalar(1.0))
      else Get(u, k)
  {
    var d := Set(u, "shader_mode", Scalar(0.0));
    PresetSets(d, 0);
    if k in CustomKeys {
      var i := KeyIndex(k);
      assert Get(Constructed(u), CustomKeys[i]) == Some(Scalar(PresetValues(0)[i]));
    } else {
      assert Get(Constructed(u), k) == Get(d, k);
    }
  }

  /** Construction keeps the record fitting its buffer. */
  lemma ConstructedFits(u: Record)
    requires Gl.Fits(u, 44)
    ensures Gl.Fits(Constructed(u), 44)
  {
    assert Gl.ShapeOf("shader_mode").Some?;
    var d := Set(u, "shader_mode", Scalar(0.0));
    Gl.SetKeeps(u, d, 44, "shader_mode", Scalar(0.0));
    PresetFits(d, 44, 0);
  }

  /** Construction overrides the renderer's defaults: shading mode 0 and
      `custom_a` 1, where the defaults have mode 1 and `custom_a` −2. */
  lemma ConstructedDefaults()
    ensures Get(Gl.Defaults(), "shader_mode") == Some(Scalar(1.0))
    ensures Get(Constructed(Gl.Defaults()), "shader_mode") == Some(Scalar(0.0))
    ensures Get(Gl.Defaults(), "custom_a") == Some(Scalar(-2.0))
    ensures Get(Constructed(Gl.Defaults()), "custom_a") == Some(Scalar(1.0))
  {
    Gl.DefaultsGet("shader_mode");
    Gl.DefaultsGet("custom_a");
    ConstructedGet(Gl.Defaults(), "shader_mode");
    ConstructedGet(Gl.Defaults(), "custom_a");
  }

  /** The number of tabs in the tab bar: General, Ray Marching, Custom
      Code and Controls. */
  const TabCount: nat := 4

  class GUIManager {
    const gpu: Gl.WebGLManager
    var autoRefresh: bool
    var currentTab: Option<int>
    var keyStates: map<string, bool>
    var mouseStates: seq<bool>
    /** How many times fullscreen was toggled with F11. */
    var fullscreenToggles: nat
    /** Whether each tab button has the "active" class. */
    const tabs: array<bool>
    /** The class lists of the menu's element children: the first is
        shown with no tab, the others one per tab. */
    const menu: array<set<string>>
    /** Whether the menu element itself has the "hidden" class. */
    var menuHidden: bool
    /** The class lists of the children of "group-variables", one per
        SDF. */
    const variables: array<set<string>>

    /** Auto refresh on, no key recorded, the buttons up and fullscreen
        never toggled: the state right after construction. */
    predicate Idle()
      reads this
    {
      autoRefresh && keyStates == map[] && mouseStates == NoButtons && fullscreenToggles == 0
    }

    /** `new GUIManager(canvas, gpu, camera, storage)`: auto refresh on, no
        key recorded, five buttons up; the tab switch is built with the
        first tab active and reports it, which selects the first tab
        without touching the buttons again. Building the shading switch
        reports "Marches", which sets `shader_mode` to 0, and building the
        SDF switch reports "Custom", which shows its variables, writes its
        preset and recompiles with the editor's SDF; `computeOk`,
        `renderOk` and `buffer` are the GL answers that recompile
        receives. */
    constructor (gpu: Gl.WebGLManager, menu: array<set<string>>, variables: array<set<string>>,
                 computeOk: bool, renderOk: bool, buffer: Handle)
      requires gpu.Valid() && menu != variables
      modifies menu, variables, gpu`uniforms, gpu`computeProgram, gpu`renderProgram, gpu`uniformBuffer
      modifies gpu`uniformBuffers, gpu`uniformData
      ensures this.gpu == gpu && this.menu == menu && this.variables == variables
      ensures gpu.Valid() && gpu.uniforms == Constructed(old(gpu.uniforms))
      ensures forall i :: 0 <= i < variables.Length ==>
        variables[i] == Switched(old(variables[i]), i == 0, None, Some("hidden"))
      ensures gpu.computeProgram ==
        if computeOk then Some(Gl.Program(Gl.ComputeSource(gpu.computeShaderCode, EditorSdf, true)))
        else old(gpu.computeProgram)
      ensures Idle()
      ensures fresh(tabs) && tabs[..] == Widgets.OnlyAt(TabCount, Some(0))
      ensures currentTab == Some(0) && !menuHidden
      ensures forall i :: 0 <= i < menu.Length ==>
        menu[i] == Switched(old(menu[i]), i == 1, None, Some("hidden"))
    {
      this.gpu := gpu;
      this.menu := menu;
      this.variables := variables;
      autoRefresh := true;
      currentTab := Some(0);
      keyStates := map[];
      mouseStates := NoButtons;
      fullscreenToggles := 0;
      tabs := new bool[TabCount](i => i == 0);
      menuHidden := false;
      new;
      assert tabs[..] == Widgets.OnlyAt(TabCount, Some(0));
      assert Idle();
      ghost var u := gpu.uniforms;
      SwitchTab(Some(0), false, false);
      BuildSwitches(computeOk, renderOk, buffer);
      ConstructedFits(u);
    }

    /** Building the shading switch reports "Marches" (index 0); the code
        editor is then filled with the sphere SDF and building the SDF
        switch reports "Custom" (index 0), which finds no file to fetch. */
    method BuildSwitches(computeOk: bool, renderOk: bool, buffer: Handle)
      requires gpu.Valid()
      modifies variables, gpu`uniforms, gpu`computeProgram, gpu`renderProgram, gpu`uniformBuffer
      modifies gpu`uniformBuffers, gpu`uniformData
      ensures gpu.uniforms == Constructed(old(gpu.uniforms))
      ensures forall i :: 0 <= i < variables.Length ==>
        variables[i] == Switched(old(variables[i]), i == 0, None, Some("hidden"))
      ensures gpu.computeProgram ==
        if computeOk then Some(Gl.Program(Gl.ComputeSource(gpu.computeShaderCode, EditorSdf, true)))
        else old(gpu.computeProgram)
    {
      ChooseShading(0);
      var code := EditorSdf;
      assert SdfCode(0, code, "") == code by { assert PresetFile(0).None?; }
      var _ := ChooseSdf(0, code, "", computeOk, renderOk, buffer);
    }

    /** `switchTab(value, updateButtons)` with `fullscreen` the document's
        fullscreen state: the buttons show `value` when asked to; the
        menu is shown, except with no tab in fullscreen; the menu child
        for `value` loses "hidden" and every other child gains it. */
    method SwitchTab(value: Option<int>, updateButtons: bool, fullscreen: bool)
      modifies tabs, menu, this`currentTab, this`menuHidden
      ensures currentTab == value
      ensures menuHidden <==> value.None? && fullscreen
      ensures tabs[..] == if updateButtons then Widgets.OnlyAt(tabs.Length, value) else old(tabs[..])
      ensures forall i :: 0 <= i < menu.Length ==>
        menu[i] == Switched(old(menu[i]), i == MenuIndex(value), None, Some("hidden"))
    {
      if updateButtons {
        Widgets.SetIndex(tabs, value);
      }
      menuHidden := false;
      currentTab := value;
      if value.None? {
        if fullscreen {
          menuHidden := true;
        }
        SwitchAttribute(menu, 0, None, Some("hidden"));
      } else {
        SwitchAttribute(menu, value.value + 1, None, Some("hidden"));
      }
    }

    /** `scrollTab(delta)`: switches, buttons included, to the tab the
        wheel steps to; from a tab in range it stays in range. */
    method ScrollTab(delta: real, fullscreen: bool)
      requires tabs.Length > 0
      modifies tabs, menu, this`currentTab, this`menuHidden
      ensures currentTab == ScrollTarget(old(currentTab), delta, tabs.Length)
      ensures InRange(old(currentTab), tabs.Length) ==> InRange(currentTab, tabs.Length)
      ensures tabs[..] == Widgets.OnlyAt(tabs.Length, currentTab)
      ensures menuHidden <==> currentTab.None? && fullscreen
      ensures forall i :: 0 <= i < menu.Length ==>
        menu[i] == Switched(old(menu[i]), i == MenuIndex(currentTab), None, Some("hidden"))
    {
      var target := ScrollTarget(currentTab, delta, tabs.Length);
      if InRange(currentTab, tabs.Length) {
        ScrollInRange(currentTab, delta, tabs.Length);
      }
      SwitchTab(target, true, fullscreen);
    }

    /** The fullscreen change events: with no tab selected the menu is
        hidden exactly in fullscreen; with a tab nothing changes. */
    method FullscreenChange(fullscreen: bool)
      modifies this`menuHidden
      ensures menuHidden == if currentTab.None? then fullscreen else old(menuHidden)
    {
      if !fullscreen && currentTab.None? {
        menuHidden := false;
      } else if fullscreen && currentTab.None? {
        menuHidden := true;
      }
    }

    /** The document's `keydown`: the key is recorded even while typing;
        the arrows then step `render_scale`, F11 toggles fullscreen and Tab
        flips auto refresh, the arrows and Tab only when not typing. */
    method KeyDown(key: string, typing: bool)
      requires gpu.Valid()
      modifies this`keyStates, this`autoRefresh, this`fullscreenToggles, gpu`uniforms
      ensures gpu.Valid()
      ensures keyStates == old(keyStates)[key := true]
      ensures Get(gpu.uniforms, "render_scale").Some? && Get(gpu.uniforms, "render_scale").value.Scalar?
      ensures ScalarOf(gpu.uniforms, "render_scale") == ArrowScale(old(ScalarOf(gpu.uniforms, "render_scale")), key, typing)
      ensures forall k :: k != "render_scale" ==> Get(gpu.uniforms, k) == Get(old(gpu.uniforms), k)
      ensures autoRefresh == if key == "Tab" && !typing then !old(autoRefresh) else old(autoRefresh)
      ensures fullscreenToggles == if key == "F11" then old(fullscreenToggles) + 1 else old(fullscreenToggles)
    {
      assert Gl.ShapeOf("render_scale").Some?;
      keyStates := keyStates[key := true];
      if key == "ArrowUp" || key == "ArrowDown" {
        if !typing {
          var v := Scalar(ArrowScale(ScalarOf(gpu.uniforms, "render_scale"), key, typing));
          var u := Set(gpu.uniforms, "render_scale", v);
          Gl.SetKeeps(gpu.uniforms, u, 44, "render_scale", v);
          gpu.uniforms := u;
        }
      } else if key == "F11" {
        fullscreenToggles := fullscreenToggles + 1;
      } else if key == "Tab" {
        if !typing {
          autoRefresh := !autoRefresh;
        }
      }
    }

    /** The document's `keyup`. */
    method KeyUp(key: string)
      modifies this`keyStates
      ensures keyStates == old(keyStates)[key := false]
    {
      keyStates := keyStates[key := false];
    }

    /** The document's `mousedown`. */
    method MouseDown(button: nat)
      modifies this`mouseStates
      ensures mouseStates == Pressing(old(mouseStates), button, true)
    {
      mouseStates := Pressing(mouseStates, button, true);
    }

    /** The document's two `mouseup` listeners: the button is released,
        then the view refreshes when auto refresh is on. */
    method MouseUp(button: nat)
      requires gpu.Valid()
      modifies this`mouseStates, gpu`uniforms
      ensures gpu.Valid()
      ensures mouseStates == Pressing(old(mouseStates), button, false)
      ensures gpu.uniforms == if autoRefresh then Set(old(gpu.uniforms), "temporal_counter", Scalar(1.0)) else old(gpu.uniforms)
    {
      mouseStates := Pressing(mouseStates, button, false);
      if autoRefresh {
        gpu.Refresh();
      }
    }

    /** The document's `wheel`: the view refreshes while the camera orbits,
        whether or not auto refresh is on. */
    method Wheel(orbiting: bool)
      requires gpu.Valid()
      modifies gpu`uniforms
      ensures gpu.Valid()
      ensures gpu.uniforms == if orbiting then Set(old(gpu.uniforms), "temporal_counter", Scalar(1.0)) else old(gpu.uniforms)
    {
      if orbiting {
        gpu.Refresh();
      }
    }

    /** The document's `mousemove`: a refresh when a button is held or the
        camera is steering, and auto refresh is on. */
    method MouseMove(cameraEnabled: bool)
      requires gpu.Valid()
      modifies gpu`uniforms
      ensures gpu.Valid()
      ensures gpu.uniforms ==
        if (AnyButton(mouseStates) || cameraEnabled) && autoRefresh
        then Set(old(gpu.uniforms), "temporal_counter", Scalar(1.0)) else old(gpu.uniforms)
    {
      var held := IsMousePressed();
      if (held || cameraEnabled) && autoRefresh {
        gpu.Refresh();
      }
    }

    /** The document's `touchmove`: a refresh when auto refresh is on. */
    method TouchMove()
      requires gpu.Valid()
      modifies gpu`uniforms
      ensures gpu.Valid()
      ensures gpu.uniforms == if autoRefresh then Set(old(gpu.uniforms), "temporal_counter", Scalar(1.0)) else old(gpu.uniforms)
    {
      if autoRefresh {
        gpu.Refresh();
      }
    }

    /** `isKeyPressed()`. */
    method IsKeyPressed() returns (pressed: bool)
      ensures pressed <==> AnyKey(keyStates)
    {
      pressed := KeyPressed(keyStates);
    }

    /** `isMousePressed()`. */
    method IsMousePressed() returns (pressed: bool)
      ensures pressed <==> AnyButton(mouseStates)
    {
      pressed := MousePressed(mouseStates);
    }

    /** The shading switch's callback for option `value` (Marches,
        Normals, Phong, Pathtraced): only `shader_mode` changes. */
    method ChooseShading(value: nat)
      requires gpu.Valid()
      modifies gpu`uniforms
      ensures gpu.Valid()
      ensures Get(gpu.uniforms, "shader_mode") == Some(Scalar(value as real))
      ensures forall k :: k != "shader_mode" ==> Get(gpu.uniforms, k) == Get(old(gpu.uniforms), k)
      ensures gpu.uniforms == Set(old(gpu.uniforms), "shader_mode", Scalar(value as real))
    {
      assert Gl.ShapeOf("shader_mode").Some?;
      var u := Set(gpu.uniforms, "shader_mode", Scalar(value as real));
      Gl.SetKeeps(gpu.uniforms, u, 44, "shader_mode", Scalar(value as real));
      gpu.uniforms := u;
    }

    /** The SDF switch's callback for index `value`: the variables group
        of that SDF is shown and the others hidden, the custom fields take
        the preset's parameters, and the renderer recompiles with the
        fetched shader file, or with `editorCode` for an index without one.
        `fetched` is the file's text and `computeOk`, `renderOk` and
        `buffer` are the GL answers `recompile` receives. */
    method ChooseSdf(value: int, editorCode: string, fetched: string, computeOk: bool, renderOk: bool, buffer: Handle)
      returns (outcome: Gl.SetupOutcome)
      requires gpu.Valid()
      modifies variables, gpu`uniforms, gpu`computeProgram, gpu`renderProgram, gpu`uniformBuffer
      modifies gpu`uniformBuffers, gpu`uniformData
      ensures gpu.Valid()
      ensures forall i :: 0 <= i < variables.Length ==>
        variables[i] == Switched(old(variables[i]), i == value, None, Some("hidden"))
      ensures gpu.uniforms == Preset(old(gpu.uniforms), value)
      ensures outcome == Gl.Ready <==> computeOk && renderOk
      ensures gpu.computeProgram ==
        if computeOk then Some(Gl.Program(Gl.ComputeSource(gpu.computeShaderCode, SdfCode(value, editorCode, fetched), true)))
        else old(gpu.computeProgram)
    {
      SwitchAttribute(variables, value, None, Some("hidden"));
      var code := SdfCode(value, editorCode, fetched);
      var u := Preset(gpu.uniforms, value);
      PresetFits(gpu.uniforms, 44, value);
      gpu.uniforms := u;
      outcome := gpu.Recompile(code, computeOk, renderOk, buffer);
    }
  }

  /** The SDF source a preset compiles: the fetched file when it has one,
      the editor's code otherwise. */
  function SdfCode(value: int, editorCode: string, fetched: string): (code: string)
    ensures PresetFile(value).None? ==> code == editorCode
    ensures PresetFile(value).Some? ==> code == fetched
  {
    if PresetFile(value).Some? then fetched else editorCode
  }
}
