/** The GUI of raymarcher/control/gui.js over the WebGPU renderer: the tab
    bar, in which clicking or scrolling onto the active tab deselects it,
    the groups of the menu each tab shows, the shading switch and the
    resize rule. The document's fullscreen state and the canvas's client
    size are parameters. */
module RaymarcherGui {
  import opened Wrappers
  import opened Values
  import opened Uniforms
  import opened Tabs
  import opened Lifecycle
  import Widgets
  import Gpu = RaymarcherGpu

  /** The number of tabs: General, Ray Marching, Custom Code and Info. */
  const TabCount: nat := 4

  /** A value `switchTab` has groups for. */
  predicate IsTab(v: Option<int>)
  {
    v.Some? && 0 <= v.value < TabCount
  }

  /** The menu groups `switchTab(v)` shows: two for General, six for Ray
      Marching, two for Custom Code and two for Info; for any other value
      the "nothing selected" group, unless in fullscreen. */
  function TabGroups(v: Option<int>, fullscreen: bool): (g: set<string>)
    ensures IsTab(v) ==> |g| >= 2 && "group-unselected" !in g
    ensures !IsTab(v) ==> g == if fullscreen then {} else {"group-unselected"}
  {
    if v == Some(0) then {"group-display", "group-camera"}
    else if v == Some(1) then
      {"group-shading", "group-lens", "group-sun", "group-marching", "group-sdf", "group-sdf-options"}
    else if v == Some(2) then {"group-custom-sdf", "group-code"}
    else if v == Some(3) then {"group-controls", "group-widgets"}
    else if fullscreen then {}
    else {"group-unselected"}
  }

  /** Distinct tabs show disjoint groups. */
  lemma TabGroupsDisjoint(a: int, b: int, fullscreen: bool)
    requires 0 <= a < TabCount && 0 <= b < TabCount && a != b
    ensures TabGroups(Some(a), fullscreen) * TabGroups(Some(b), fullscreen) == {}
  {
  }

  /** The menu element: whether it is hidden, and which of its group
      children are not. */
  datatype Menu = Menu(hidden: bool, shown: set<string>)

  /** The menu `switchTab(v)` leaves: shown with the tab's groups, or,
      for no tab in fullscreen, hidden with none. */
  function Display(v: Option<int>, fullscreen: bool): (m: Menu)
    ensures m.hidden <==> !IsTab(v) && fullscreen
    ensures m.shown == TabGroups(v, fullscreen)
  {
    Menu(!IsTab(v) && fullscreen, TabGroups(v, fullscreen))
  }

  /** The fullscreen change events: leaving fullscreen with the menu hidden
      shows it and the "nothing selected" group; entering it with that
      group shown hides both. */
  function FullscreenStep(m: Menu, fullscreen: bool): Menu
  {
    if !fullscreen && m.hidden then Menu(false, m.shown + {"group-unselected"})
    else if fullscreen && "group-unselected" in m.shown then Menu(true, m.shown - {"group-unselected"})
    else m
  }

  /** A fullscreen change brings the menu `switchTab` left to the one it
      would have left in the new state, so the menu never depends on when
      fullscreen was entered or left. */
  lemma FullscreenKeepsDisplay(v: Option<int>, before: bool, after: bool)
    ensures FullscreenStep(Display(v, before), after) == Display(v, after)
  {
    if !IsTab(v) && before && !after {
      assert {} + {"group-unselected"} == {"group-unselected"};
    }
    if !IsTab(v) && !before && after {
      assert {"group-unselected"} - {"group-unselected"} == {};
    }
  }

  /** The value `switchTab(value)` goes on with after its check of the tab
      buttons: none when the button at `value` was already active. */
  function ToggledTab(active: seq<bool>, value: Option<int>): (v: Option<int>)
    ensures v.None? <==> value.None? || (0 <= value.value < |active| && active[value.value])
    ensures v.Some? ==> v == value
  {
    if value.Some? && 0 <= value.value < |active| && active[value.value] then None else value
  }

  /** `switchTab`'s check of the tab buttons: every button is made active
      or not by whether its index equals `value`, except that finding
      `value`'s button already active deselects it and every later button
      and goes on with no tab. */
  method CheckTabs(tabs: array<bool>, value: Option<int>) returns (v: Option<int>)
    modifies tabs
    ensures v == ToggledTab(old(tabs[..]), value)
    ensures tabs[..] == Widgets.OnlyAt(tabs.Length, v)
  {
    v := value;
    var i := 0;
    while i < tabs.Length
      invariant 0 <= i <= tabs.Length
      invariant v == if value.Some? && 0 <= value.value < i && old(tabs[value.value]) then None else value
      invariant forall j :: 0 <= j < i ==> (tabs[j] <==> v == Some(j))
      invariant forall j :: i <= j < tabs.Length ==> tabs[j] == old(tabs[j])
    {
      if tabs[i] && v == Some(i) {
        tabs[i] := false;
        v := None;
      } else if v == Some(i) {
        tabs[i] := true;
      } else {
        tabs[i] := false;
      }
      i := i + 1;
    }
  }

  /** When the buttons show the current tab, scrolling never lands on an
      active button, so the check never deselects the scroll's target. */
  lemma ScrollNeverToggles(current: Option<int>, delta: real, n: nat)
    requires n > 0 && InRange(current, n)
    ensures ToggledTab(Widgets.OnlyAt(n, current), ScrollTarget(current, delta, n)) == ScrollTarget(current, delta, n)
  {
    ScrollInRange(current, delta, n);
    var t := ScrollTarget(current, delta, n);
    if t.Some? {
      assert t != current;
      assert !Widgets.OnlyAt(n, current)[t.value];
    }
  }

  /** The shading switch's callback: options 1 to 3 select their mode,
      anything else, null included, mode 0. */
  function ShaderMode(index: Option<int>): (m: real)
    ensures m == 0.0 || m == 1.0 || m == 2.0 || m == 3.0
    ensures index == Some(1) || index == Some(2) || index == Some(3) ==> m == index.value as real
    ensures !(index == Some(1) || index == Some(2) || index == Some(3)) ==> m == 0.0
  {
    if index == Some(1) then 1.0
    else if index == Some(2) then 2.0
    else if index == Some(3) then 3.0
    else 0.0
  }

  /** Every option of the four-option switch selects the mode of its own
      index, and deselecting selects mode 0. */
  lemma ModeOfOption(i: int)
    requires 0 <= i < 4
    ensures ShaderMode(Some(i)) == i as real && ShaderMode(None) == 0.0
  {
  }

  class GUI {
    const gpu: Gpu.GPUManager
    var autoRefresh: bool
    var currentTab: Option<int>
    /** Whether each tab button has the "active" class. */
    const tabs: array<bool>
    var menu: Menu

    /** The tab buttons show the current tab, which is a tab or none. */
    ghost predicate Consistent()
      reads this, tabs
    {
      tabs.Length == TabCount && InRange(currentTab, TabCount) && tabs[..] == Widgets.OnlyAt(TabCount, currentTab)
    }

    /** `new GUI(camera, gpu)`: auto refresh on; the tab switch is built
        with the first tab active and reports it, which selects the first
        tab without checking the buttons; the shading switch reports its
        first option, selecting mode 0. */
    constructor (gpu: Gpu.GPUManager, fullscreen: bool)
      requires gpu.Valid()
      modifies gpu`uniforms
      ensures Consistent() && fresh(tabs)
      ensures this.gpu == gpu && autoRefresh
      ensures currentTab == Some(0) && menu == Display(Some(0), fullscreen)
      ensures gpu.Valid() && gpu.uniforms == Set(old(gpu.uniforms), "shader_mode", Scalar(0.0))
    {
      this.gpu := gpu;
      autoRefresh := true;
      currentTab := Some(0);
      tabs := new bool[TabCount](i => i == 0);
      menu := Display(Some(0), fullscreen);
      new;
      SwitchTab(Some(0), false, fullscreen);
      SelectShading(Some(0));
      assert tabs[..] == Widgets.OnlyAt(TabCount, Some(0));
    }

    /** `switchTab(value, check)` with `fullscreen` the document's
        fullscreen state: with the check the buttons are updated, and
        switching to the active tab goes to no tab; the menu then shows
        the groups of the resulting tab. */
    method SwitchTab(value: Option<int>, check: bool, fullscreen: bool)
      modifies tabs, this`currentTab, this`menu
      ensures currentTab == if check then ToggledTab(old(tabs[..]), value) else value
      ensures tabs[..] == if check then Widgets.OnlyAt(tabs.Length, currentTab) else old(tabs[..])
      ensures menu == Display(currentTab, fullscreen)
    {
      var v := value;
      if check {
        v := CheckTabs(tabs, value);
      }
      menu := Display(v, fullscreen);
      currentTab := v;
    }

    /** A click on tab button `i`: the switch deselects an active button
        and reports null, or makes `i` the only active button and reports
        it; the report switches tabs without checking the buttons. */
    method ClickTab(i: nat, fullscreen: bool)
      requires Consistent() && i < tabs.Length
      modifies tabs, this`currentTab, this`menu
      ensures Consistent()
      ensures currentTab == if old(currentTab) == Some(i) then None else Some(i)
      ensures menu == Display(currentTab, fullscreen)
    {
      var value: Option<int>;
      if tabs[i] {
        Widgets.SetIndex(tabs, None);
        value := None;
      } else {
        Widgets.SetIndex(tabs, None);
        tabs[i] := true;
        value := Some(i);
        assert tabs[..] == Widgets.OnlyAt(tabs.Length, Some(i));
      }
      SwitchTab(value, false, fullscreen);
    }

    /** `scrollTab(delta)`: switches, with the check, to the tab the wheel
        steps to; since the buttons show the current tab, the check never
        deselects it. */
    method ScrollTab(delta: real, fullscreen: bool)
      requires Consistent()
      modifies tabs, this`currentTab, this`menu
      ensures Consistent()
      ensures currentTab == ScrollTarget(old(currentTab), delta, TabCount)
      ensures menu == Display(currentTab, fullscreen)
    {
      var target := ScrollTarget(currentTab, delta, tabs.Length);
      ScrollNeverToggles(currentTab, delta, tabs.Length);
      ScrollInRange(currentTab, delta, tabs.Length);
      SwitchTab(target, true, fullscreen);
    }

    /** The fullscreen change events. */
    method FullscreenChange(fullscreen: bool)
      modifies this`menu
      ensures menu == FullscreenStep(old(menu), fullscreen)
    {
      if !fullscreen && menu.hidden {
        menu := Menu(false, menu.shown + {"group-unselected"});
      } else if fullscreen && "group-unselected" in menu.shown {
        menu := Menu(true, menu.shown - {"group-unselected"});
      }
    }

    /** The shading switch's callback: `shader_mode` takes the mode of the
        chosen option. */
    method SelectShading(index: Option<int>)
      requires gpu.Valid()
      modifies gpu`uniforms
      ensures gpu.Valid()
      ensures gpu.uniforms == Set(old(gpu.uniforms), "shader_mode", Scalar(ShaderMode(index)))
    {
      var v := Scalar(ShaderMode(index));
      var u := Set(gpu.uniforms, "shader_mode", v);
      Gpu.SetKeeps(gpu.uniforms, u, |gpu.uniformData|, "shader_mode", v);
      gpu.uniforms := u;
    }

    /** The window's `resize` with the canvas's new bounding rectangle
        `w`×`h`: the accumulation restarts, then the resolution follows
        the capped rectangle. */
    method Resize(w: real, h: real)
      requires gpu.Valid()
      modifies gpu`uniforms, gpu`canvasSize
      ensures gpu.Valid()
      ensures gpu.uniforms == Gpu.Synced(Set(old(gpu.uniforms), "temporal_counter", Scalar(1.0)), w, h)
      ensures gpu.canvasSize == RectPixels(w, h)
    {
      gpu.RefreshScreen();
      gpu.SyncResolution(w, h);
    }
  }
}
