/**
  The in-world menu: a panel that any of a list of keys toggles, that
  appears a fixed distance in front of the camera, and that hides itself
  once the player has moved too far away from it.
 */
module Menu {
  import opened Geometry

  /** How far in front of the camera Show places the menu. */
  const PlaceDistance: real := 3.0
  /** Beyond this distance from the camera a visible menu hides itself. */
  const AutoHideDistance: real := 5.0

  /** A key of the keyboard or gamepad, as Unity's KeyCode enumeration numbers it. */
  datatype KeyCode = KeyCode(code: nat)

  /** Where PlaceInFront puts the menu: `camera + forward * 3`. */
  function InFront(camera: Vec3, forward: Vec3): Vec3 {
    Add(camera, Scale(forward, PlaceDistance))
  }

  /** The number of entries of `buttons` that went down this frame; a key listed twice counts twice. */
  function Presses(buttons: seq<KeyCode>, pressed: set<KeyCode>): (c: nat)
    ensures c <= |buttons|
    ensures c == 0 <==> forall i :: 0 <= i < |buttons| ==> buttons[i] !in pressed
  {
    if buttons == [] then 0
    else Presses(buttons[..|buttons| - 1], pressed) + (if buttons[|buttons| - 1] in pressed then 1 else 0)
  }

  /** Whether the menu is visible after `c` toggles starting from `visible`. */
  predicate Parity(visible: bool, c: nat) {
    visible != (c % 2 == 1)
  }

  /** What the scripts change about the menu: its visibility, its panel's active flag and its position. */
  datatype MenuView = MenuView(visible: bool, panelActive: bool, position: Vec3)

  function Shown(camera: Vec3, forward: Vec3): MenuView {
    MenuView(true, true, InFront(camera, forward))
  }

  function Hidden(v: MenuView): MenuView {
    v.(visible := false, panelActive := false)
  }

  function Toggled(v: MenuView, camera: Vec3, forward: Vec3): MenuView {
    if v.visible then Hidden(v) else Shown(camera, forward)
  }

  /** The menu after the key loop of Update has toggled it once per listed key that went down. */
  function AfterKeys(v: MenuView, buttons: seq<KeyCode>, pressed: set<KeyCode>, camera: Vec3, forward: Vec3): MenuView
  {
    if buttons == [] then v
    else
      var w := AfterKeys(v, buttons[..|buttons| - 1], pressed, camera, forward);
      if buttons[|buttons| - 1] in pressed then Toggled(w, camera, forward) else w
  }

  /** The menu after a whole Update: the key loop, then the auto-hide check. */
  function AfterFrame(v: MenuView, buttons: seq<KeyCode>, pressed: set<KeyCode>, camera: Vec3, forward: Vec3): (r: MenuView)
    ensures r.visible ==> !FartherThan(r.position, camera, AutoHideDistance)
    ensures r.position == AfterKeys(v, buttons, pressed, camera, forward).position
  {
    var w := AfterKeys(v, buttons, pressed, camera, forward);
    if w.visible && FartherThan(w.position, camera, AutoHideDistance) then Hidden(w) else w
  }

  /** Toggling twice restores the visibility and leaves the menu in front of the camera. */
  lemma ToggleTwice(v: MenuView, camera: Vec3, forward: Vec3)
    ensures var w := Toggled(Toggled(v, camera, forward), camera, forward);
            && w.visible == v.visible
            && (v.panelActive == v.visible ==> w.panelActive == v.panelActive)
            && w.position == InFront(camera, forward)
  {
  }

  /** Hiding twice is hiding once, and hiding never moves the menu. */
  lemma HideIdempotent(v: MenuView)
    ensures Hidden(Hidden(v)) == Hidden(v) && Hidden(v).position == v.position
  {
  }

  /**
    The key loop toggles once per press: the visibility flips with the
    parity of the number of presses; the menu is placed in front of the
    camera as soon as one toggle showed it; and the panel follows the
    visibility once any toggle ran.
   */
  lemma {:induction false} AfterKeysParity(v: MenuView, buttons: seq<KeyCode>, pressed: set<KeyCode>, camera: Vec3, forward: Vec3)
    ensures var c := Presses(buttons, pressed);
            var w := AfterKeys(v, buttons, pressed, camera, forward);
            && w.visible == Parity(v.visible, c)
            && w.position == (if c >= 2 || (c == 1 && !v.visible) then InFront(camera, forward) else v.position)
            && w.panelActive == (if c == 0 then v.panelActive else w.visible)
  {
    if buttons != [] {
      AfterKeysParity(v, buttons[..|buttons| - 1], pressed, camera, forward);
    }
  }

  /** An even number of presses, and a menu near enough, leave the visibility as it was. */
  lemma EvenPressesKeepVisibility(v: MenuView, buttons: seq<KeyCode>, pressed: set<KeyCode>, camera: Vec3, forward: Vec3)
    requires Presses(buttons, pressed) % 2 == 0
    requires !FartherThan(AfterKeys(v, buttons, pressed, camera, forward).position, camera, AutoHideDistance)
    ensures AfterFrame(v, buttons, pressed, camera, forward).visible == v.visible
  {
    AfterKeysParity(v, buttons, pressed, camera, forward);
  }

  class VRMenu {
    var isVisible: bool
    /** The menu panel's active flag. */
    var panelActive: bool
    /** The menu's own position. */
    var position: Vec3
    var togglingButtons: seq<KeyCode>

    function View(): MenuView
      reads this`isVisible, this`panelActive, this`position
    {
      MenuView(isVisible, panelActive, position)
    }

    constructor (buttons: seq<KeyCode>, panel: bool, at: Vec3)
      ensures !isVisible && panelActive == panel && position == at && togglingButtons == buttons
    {
      isVisible := false;
      panelActive := panel;
      position := at;
      togglingButtons := buttons;
    }

    /** PlaceInFront: moves the menu `PlaceDistance` along the camera's forward direction. */
    method PlaceInFront(camera: Vec3, forward: Vec3)
      modifies this`position
      ensures position == InFront(camera, forward)
    {
      position := Add(camera, Scale(forward, PlaceDistance));
    }

    /** Show: activates the panel, places the menu in front of the camera and marks it visible. */
    method Show(camera: Vec3, forward: Vec3)
      modifies this`panelActive, this`position, this`isVisible
      ensures View() == Shown(camera, forward)
    {
      panelActive := true;
      PlaceInFront(camera, forward);
      isVisible := true;
    }

    /** Hide: deactivates the panel and marks the menu hidden; the menu stays where it is. */
    method Hide()
      modifies this`panelActive, this`isVisible
      ensures View() == Hidden(old(View()))
    {
      panelActive := false;
      isVisible := false;
    }

    /** Toggle: Hide when visible, Show when hidden. */
    method Toggle(camera: Vec3, forward: Vec3)
      modifies this`panelActive, this`position, this`isVisible
      ensures View() == Toggled(old(View()), camera, forward)
    {
      if isVisible {
        Hide();
      } else {
        Show(camera, forward);
      }
    }

    /**
      Update, one frame: one Toggle per listed key that went down this
      frame (`pressed` is Input.GetKeyDown), then, when the menu is visible
      and more than AutoHideDistance from the camera, Hide.
     */
    method Update(pressed: set<KeyCode>, camera: Vec3, forward: Vec3)
      modifies this`panelActive, this`position, this`isVisible
      ensures View() == AfterFrame(old(View()), togglingButtons, pressed, camera, forward)
    {
      var i := 0;
      while i < |togglingButtons|
        invariant 0 <= i <= |togglingButtons|
        invariant View() == AfterKeys(old(View()), togglingButtons[..i], pressed, camera, forward)
      {
        assert togglingButtons[..i + 1][..i] == togglingButtons[..i];
        if togglingButtons[i] in pressed {
          Toggle(camera, forward);
        }
        i := i + 1;
      }
      assert togglingButtons[..i] == togglingButtons;
      if isVisible && FartherThan(position, camera, AutoHideDistance) {
        Hide();
      }
    }
  }
}
