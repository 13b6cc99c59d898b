/**
 * The hover/selection state machine of `InteractionManager`
 * (js/interactions.js): which object is hovered and which selected, the
 * highlight each applies to an object's material and the single cache slot
 * `userData._originalEmissive` that both use to restore it, and what the info
 * panel shows.
 */
module Interactions {
  import opened Base
  import CelestialBodies

  /** A colour as three channels in [0, 1]. */
  datatype Colour = Colour(r: real, g: real, b: real)

  /** `new THREE.Color(hex)` for a 24-bit hex value, channel by channel. */
  function FromHex(hex: nat): (c: Colour)
    requires hex < 0x1000000
    ensures 0.0 <= c.r <= 1.0 && 0.0 <= c.g <= 1.0 && 0.0 <= c.b <= 1.0
  {
    Colour((hex / 0x10000) as real / 255.0, (hex / 0x100 % 0x100) as real / 255.0, (hex % 0x100) as real / 255.0)
  }

  const White: Colour := FromHex(0xffffff)
  const HoverEmissive: Colour := FromHex(0x555555)
  const SelectEmissive: Colour := FromHex(0x777777)

  /** `color.lerp(target, alpha)`: each channel moved the fraction `alpha` of the way to `target`. */
  function Lerp(c: Colour, target: Colour, alpha: real): Colour {
    Colour(c.r + (target.r - c.r) * alpha, c.g + (target.g - c.g) * alpha, c.b + (target.b - c.b) * alpha)
  }

  /**
   * The highlight state of one object: its material's `emissive` and `color`
   * (`None` when the material has no such property) and the two cache
   * entries of its `userData` (`None` when the key is absent).
   */
  datatype Look = Look(
    emissive: Option<Colour>,
    color: Option<Colour>,
    originalEmissive: Option<Colour>,
    originalColor: Option<Colour>)

  /** A look with no cache entry, as every object starts. */
  predicate Clean(l: Look) {
    l.originalEmissive.None? && l.originalColor.None?
  }

  /** The highlight of `onObjectHover`: cache and brighten the emissive, or else cache and lighten the colour. */
  function HoverLook(l: Look): Look {
    if l.emissive.Some? then l.(originalEmissive := l.emissive, emissive := Some(HoverEmissive))
    else if l.color.Some? then l.(originalColor := l.color, color := Some(Lerp(l.color.value, White, 0.2)))
    else l
  }

  /** The restore of `onObjectLeave`: from the emissive cache if present, or else from the colour cache. */
  function LeaveLook(l: Look): Look {
    if l.originalEmissive.Some? then l.(emissive := l.originalEmissive, originalEmissive := None)
    else if l.originalColor.Some? then l.(color := l.originalColor, originalColor := None)
    else l
  }

  /** The highlight of `onObjectSelect`: cache the emissive (overwriting the slot) and set it to 0x777777. */
  function SelectLook(l: Look): Look {
    if l.emissive.Some? then l.(originalEmissive := l.emissive, emissive := Some(SelectEmissive)) else l
  }

  /** The restore of `onObjectUnselect`: from the emissive cache only. */
  function UnselectLook(l: Look): Look {
    if l.originalEmissive.Some? then l.(emissive := l.originalEmissive, originalEmissive := None) else l
  }

  // The panel texts.

  const ClearedPanel: string := "点击天体查看详情"
  const TooltipHint: string := "<p>点击查看详情...</p>"

  /** The `celestialNames` table of `showTooltip`. */
  function CelestialNames(): map<string, string> {
    map["sun" := "太阳", "mercury" := "水星", "venus" := "金星", "earth" := "地球", "mars" := "火星",
        "jupiter" := "木星", "saturn" := "土星", "uranus" := "天王星", "neptune" := "海王星", "blackhole" := "黑洞"]
  }

  /** `celestialNames[name] || name`. */
  function DisplayName(name: string): (d: string)
    ensures name in CelestialNames() ==> d == CelestialNames()[name]
    ensures name !in CelestialNames() ==> d == name
  {
    if name in CelestialNames() then CelestialNames()[name] else name
  }

  /** The panel text `showTooltip` writes. */
  function Tooltip(name: string): string {
    "<h3>" + DisplayName(name) + "</h3>" + TooltipHint
  }

  /** A node of the scene: whether it is a `THREE.Mesh`, its `userData.name` ("" when unset), and its look. */
  class SceneObject {
    const isMesh: bool
    const name: string
    var look: Look

    constructor (isMesh: bool, name: string, look: Look)
      ensures this.isMesh == isMesh && this.name == name && this.look == look
    {
      this.isMesh := isMesh;
      this.name := name;
      this.look := look;
    }
  }

  /** The filter of the `scene.traverse` callback: a mesh with a truthy `userData.name`. */
  predicate Interactable(o: SceneObject) {
    o.isMesh && o.name != ""
  }

  /** The interactable objects of a traversal, in traversal order. */
  function InteractableIn(nodes: seq<SceneObject>): seq<SceneObject>
    decreases |nodes|
  {
    if nodes == [] then []
    else (if Interactable(nodes[0]) then [nodes[0]] else []) + InteractableIn(nodes[1..])
  }

  /** `raycaster.intersectObjects(targets)`: the objects the ray crosses, nearest first, that are among `targets`. */
  function IntersectObjects(crossed: seq<SceneObject>, targets: seq<SceneObject>): (r: seq<SceneObject>)
    ensures forall o | o in r :: o in crossed && o in targets
    decreases |crossed|
  {
    if crossed == [] then []
    else (if crossed[0] in targets then [crossed[0]] else []) + IntersectObjects(crossed[1..], targets)
  }

  /** The object a pointer event lands on: the nearest interactable object the ray crosses, if any. */
  function Target(scene: seq<SceneObject>, crossed: seq<SceneObject>): Option<SceneObject> {
    var hits := IntersectObjects(crossed, InteractableIn(scene));
    if |hits| > 0 then Some(hits[0]) else None
  }

  /** The traversal filter, written as the loop that pushes onto `interactableObjects`. */
  method CollectInteractables(scene: seq<SceneObject>) returns (found: seq<SceneObject>)
    ensures found == InteractableIn(scene)
  {
    found := [];
    var i := |scene|;
    var rest: seq<SceneObject> := [];
    while i > 0
      invariant 0 <= i <= |scene|
      invariant rest == InteractableIn(scene[i..])
      decreases i
    {
      i := i - 1;
      assert scene[i..][1..] == scene[i + 1..];
      rest := (if Interactable(scene[i]) then [scene[i]] else []) + rest;
    }
    assert scene[0..] == scene;
    found := rest;
  }

  /** `mouse.x`, `mouse.y`: the pointer position in normalised device coordinates. */
  function Ndc(clientX: real, clientY: real, width: real, height: real): (p: (real, real))
    requires width > 0.0 && height > 0.0
    ensures 0.0 <= clientX <= width ==> -1.0 <= p.0 <= 1.0
    ensures 0.0 <= clientY <= height ==> -1.0 <= p.1 <= 1.0
    ensures clientX == 0.0 ==> p.0 == -1.0
    ensures clientY == 0.0 ==> p.1 == 1.0
  {
    ((clientX / width) * 2.0 - 1.0, -(clientY / height) * 2.0 + 1.0)
  }

  /** `InteractionManager`: the hover and selection state and the panel it writes. */
  class InteractionManager {
    const scene: seq<SceneObject>
    const panel: CelestialBodies.InfoPanel
    /** `Number.prototype.toLocaleString`, passed through to the info panel. */
    const fmt: real -> string
    /** The `celestialData` table the info panel reads. */
    const data: map<string, CelestialBodies.BodyRecord>
    var mouse: (real, real)
    var hoveredObject: SceneObject?
    var selectedObject: SceneObject?
    var isHovering: bool
    var cursor: string
    var listening: bool

    /** The objects the manager may change. */
    function Objects(): set<SceneObject> {
      set o | o in scene
    }

    ghost predicate Valid()
      reads this
    {
      (hoveredObject != null ==> hoveredObject in scene) && (selectedObject != null ==> selectedObject in scene)
    }

    constructor (scene: seq<SceneObject>, panel: CelestialBodies.InfoPanel, fmt: real -> string)
      ensures Valid()
      ensures this.scene == scene && this.panel == panel && this.fmt == fmt
      ensures data == CelestialBodies.CelestialData()
      ensures hoveredObject == null && selectedObject == null && !isHovering && listening
    {
      this.scene := scene;
      this.panel := panel;
      this.fmt := fmt;
      data := CelestialBodies.CelestialData();
      mouse := (0.0, 0.0);
      hoveredObject := null;
      selectedObject := null;
      isHovering := false;
      cursor := "auto";
      listening := true;
    }

    /** `onObjectHover`: highlight unless selected, then show the tooltip. */
    method OnObjectHover(o: SceneObject)
      requires Interactable(o)
      modifies o, panel
      ensures o.look == if o == selectedObject then old(o.look) else HoverLook(old(o.look))
      ensures panel.innerHTML == Tooltip(o.name)
    {
      if o != selectedObject {
        o.look := HoverLook(o.look);
      }
      if o.name != "" {
        panel.innerHTML := Tooltip(o.name);
      }
    }

    /** `hideTooltip`: clears the panel only when nothing is selected. */
    method HideTooltip()
      modifies panel
      ensures panel.innerHTML == if selectedObject == null then ClearedPanel else old(panel.innerHTML)
    {
      if selectedObject == null {
        panel.innerHTML := ClearedPanel;
      }
    }

    /** `onObjectLeave`: restore from the cache, then hide the tooltip. */
    method OnObjectLeave(o: SceneObject)
      modifies o, panel
      ensures o.look == LeaveLook(old(o.look))
      ensures panel.innerHTML == if selectedObject == null then ClearedPanel else old(panel.innerHTML)
    {
      o.look := LeaveLook(o.look);
      HideTooltip();
    }

    /** `onObjectSelect`: highlight, then show the body's details. */
    method OnObjectSelect(o: SceneObject)
      requires Interactable(o)
      modifies o, panel
      ensures o.look == SelectLook(old(o.look))
      ensures panel.innerHTML == CelestialBodies.PanelHtml(data, o.name, fmt)
    {
      o.look := SelectLook(o.look);
      if o.name != "" {
        CelestialBodies.UpdateInfoPanel(panel, data, o.name, fmt);
      }
    }

    /** `onObjectUnselect`: restore the emissive from the cache and clear the panel. */
    method OnObjectUnselect(o: SceneObject)
      modifies o, panel
      ensures o.look == UnselectLook(old(o.look))
      ensures panel.innerHTML == ClearedPanel
    {
      o.look := UnselectLook(o.look);
      panel.innerHTML := ClearedPanel;
    }

    /**
     * `checkIntersection`: moving onto a new target leaves the old hover and
     * hovers the target; moving onto empty space while hovering leaves the
     * hover; anything else changes nothing.
     */
    method CheckIntersection(crossed: seq<SceneObject>)
      requires Valid()
      modifies this, panel, Objects()
      ensures Valid()
      ensures selectedObject == old(selectedObject) && listening == old(listening) && mouse == old(mouse)
      ensures Target(scene, crossed).Some? && Target(scene, crossed).value != old(hoveredObject) ==>
        var o := Target(scene, crossed).value;
        && hoveredObject == o && isHovering && cursor == "pointer"
        && o.look == (if o == selectedObject then old(o.look) else HoverLook(old(o.look)))
        && (old(hoveredObject) != null ==> old(hoveredObject).look == LeaveLook(old(hoveredObject.look)))
        && panel.innerHTML == Tooltip(o.name)
        && forall x | x in scene && x != o && x != old(hoveredObject) :: x.look == old(x.look)
      ensures Target(scene, crossed).None? && old(isHovering) ==>
        && hoveredObject == null && !isHovering && cursor == "auto"
        && (old(hoveredObject) != null ==> old(hoveredObject).look == LeaveLook(old(hoveredObject.look)))
        && (old(hoveredObject) != null && selectedObject == null ==> panel.innerHTML == ClearedPanel)
        && (old(hoveredObject) == null || selectedObject != null ==> panel.innerHTML == old(panel.innerHTML))
        && forall x | x in scene && x != old(hoveredObject) :: x.look == old(x.look)
      ensures (Target(scene, crossed).Some? && Target(scene, crossed).value == old(hoveredObject))
              || (Target(scene, crossed).None? && !old(isHovering)) ==>
        && hoveredObject == old(hoveredObject) && isHovering == old(isHovering) && cursor == old(cursor)
        && panel.innerHTML == old(panel.innerHTML)
        && forall x | x in scene :: x.look == old(x.look)
    {
      var interactable := CollectInteractables(scene);
      var intersects := IntersectObjects(crossed, interactable);
      if |intersects| > 0 {
        var o := intersects[0];
        InteractableInIsInteractable(scene, o);
        if hoveredObject != o {
          if hoveredObject != null {
            OnObjectLeave(hoveredObject);
          }
          hoveredObject := o;
          OnObjectHover(o);
          isHovering := true;
          cursor := "pointer";
        }
      } else if isHovering {
        if hoveredObject != null {
          OnObjectLeave(hoveredObject);
        }
        hoveredObject := null;
        isHovering := false;
        cursor := "auto";
      }
    }

    /**
     * `handleClick`: clicking a new target unselects the old selection and
     * selects the target; clicking empty space clears the selection; the
     * hover state is never touched.
     */
    method HandleClick(crossed: seq<SceneObject>)
      requires Valid()
      modifies this, panel, Objects()
      ensures Valid()
      ensures hoveredObject == old(hoveredObject) && isHovering == old(isHovering) && cursor == old(cursor)
      ensures listening == old(listening) && mouse == old(mouse)
      ensures Target(scene, crossed).Some? && Target(scene, crossed).value != old(selectedObject) ==>
        var o := Target(scene, crossed).value;
        && selectedObject == o
        && o.look == SelectLook(old(o.look))
        && (old(selectedObject) != null ==> old(selectedObject).look == UnselectLook(old(selectedObject.look)))
        && panel.innerHTML == CelestialBodies.PanelHtml(data, o.name, fmt)
        && forall x | x in scene && x != o && x != old(selectedObject) :: x.look == old(x.look)
      ensures Target(scene, crossed).None? && old(selectedObject) != null ==>
        && selectedObject == null
        && old(selectedObject).look == UnselectLook(old(selectedObject.look))
        && panel.innerHTML == ClearedPanel
        && forall x | x in scene && x != old(selectedObject) :: x.look == old(x.look)
      ensures (Target(scene, crossed).Some? && Target(scene, crossed).value == old(selectedObject))
              || (Target(scene, crossed).None? && old(selectedObject) == null) ==>
        && selectedObject == old(selectedObject)
        && panel.innerHTML == old(panel.innerHTML)
        && forall x | x in scene :: x.look == old(x.look)
    {
      var interactable := CollectInteractables(scene);
      var intersects := IntersectObjects(crossed, interactable);
      if |intersects| > 0 {
        var o := intersects[0];
        InteractableInIsInteractable(scene, o);
        if selectedObject != o {
          if selectedObject != null {
            OnObjectUnselect(selectedObject);
          }
          selectedObject := o;
          OnObjectSelect(o);
        }
      } else {
        if selectedObject != null {
          OnObjectUnselect(selectedObject);
          selectedObject := null;
        }
      }
    }

    /**
     * `onMouseMove`: record the pointer in device coordinates and check what
     * it is over. `crossed` is what the ray from the camera through that
     * point crosses, nearest first.
     */
    method OnMouseMove(clientX: real, clientY: real, width: real, height: real, crossed: seq<SceneObject>)
      requires width > 0.0 && height > 0.0
      requires Valid()
      modifies this, panel, Objects()
      ensures Valid()
      ensures mouse == Ndc(clientX, clientY, width, height)
      ensures selectedObject == old(selectedObject)
      ensures hoveredObject == match Target(scene, crossed)
        case Some(o) => o
        case None => if old(isHovering) then null else old(hoveredObject)
    {
      mouse := Ndc(clientX, clientY, width, height);
      CheckIntersection(crossed);
    }

    /** `onMouseClick`: record the pointer and handle the click; the selection becomes the target, or none. */
    method OnMouseClick(clientX: real, clientY: real, width: real, height: real, crossed: seq<SceneObject>)
      requires width > 0.0 && height > 0.0
      requires Valid()
      modifies this, panel, Objects()
      ensures Valid()
      ensures mouse == Ndc(clientX, clientY, width, height)
      ensures hoveredObject == old(hoveredObject)
      ensures selectedObject == match Target(scene, crossed) case Some(o) => o case None => null
    {
      mouse := Ndc(clientX, clientY, width, height);
      HandleClick(crossed);
    }

    /** `onTouchStart`: the first touch point acts as a click; a touch list with no point does nothing. */
    method OnTouchStart(touches: seq<(real, real)>, width: real, height: real, crossed: seq<SceneObject>)
      requires width > 0.0 && height > 0.0
      requires Valid()
      modifies this, panel, Objects()
      ensures Valid()
      ensures |touches| > 0 ==>
        && mouse == Ndc(touches[0].0, touches[0].1, width, height)
        && selectedObject == match Target(scene, crossed) case Some(o) => o case None => null
      ensures |touches| == 0 ==> mouse == old(mouse) && selectedObject == old(selectedObject)
      ensures hoveredObject == old(hoveredObject)
    {
      if |touches| > 0 {
        mouse := Ndc(touches[0].0, touches[0].1, width, height);
        HandleClick(crossed);
      }
    }

    /** `destroy`: detach the listeners and forget both objects; `isHovering` is left as it was. */
    method Destroy()
      modifies this
      ensures hoveredObject == null && selectedObject == null && !listening
      ensures isHovering == old(isHovering) && cursor == old(cursor)
      ensures Valid()
    {
      listening := false;
      hoveredObject := null;
      selectedObject := null;
    }
  }

  // Properties of the target choice.

  /** Exactly the named meshes of the traversal are interactable, in traversal order. */
  lemma {:induction false} InteractableInIsFilter(nodes: seq<SceneObject>)
    ensures forall o | o in InteractableIn(nodes) :: o in nodes && Interactable(o)
    ensures forall o | o in nodes && Interactable(o) :: o in InteractableIn(nodes)
    ensures |InteractableIn(nodes)| <= |nodes|
    decreases |nodes|
  {
    if nodes != [] {
      InteractableInIsFilter(nodes[1..]);
      assert nodes == [nodes[0]] + nodes[1..];
    }
  }

  lemma InteractableInIsInteractable(nodes: seq<SceneObject>, o: SceneObject)
    requires o in InteractableIn(nodes)
    ensures o in nodes && Interactable(o)
  {
    InteractableInIsFilter(nodes);
  }

  /**
   * The target is the first crossed object that is an interactable object of
   * the scene: every crossed object before it is not; with no target, no
   * crossed object is.
   */
  lemma {:induction false} TargetIsFirstInteractable(scene: seq<SceneObject>, crossed: seq<SceneObject>)
    ensures Target(scene, crossed).Some? ==>
      && Interactable(Target(scene, crossed).value) && Target(scene, crossed).value in scene
      && exists k | 0 <= k < |crossed| ::
           crossed[k] == Target(scene, crossed).value
           && forall j | 0 <= j < k :: crossed[j] !in InteractableIn(scene)
    ensures Target(scene, crossed).None? ==> forall j | 0 <= j < |crossed| :: crossed[j] !in InteractableIn(scene)
    decreases |crossed|
  {
    InteractableInIsFilter(scene);
    var targets := InteractableIn(scene);
    if crossed != [] && crossed[0] !in targets {
      TargetIsFirstInteractable(scene, crossed[1..]);
      assert IntersectObjects(crossed, targets) == IntersectObjects(crossed[1..], targets);
      if Target(scene, crossed).Some? {
        var k :| 0 <= k < |crossed[1..]| && crossed[1..][k] == Target(scene, crossed).value
          && forall j | 0 <= j < k :: crossed[1..][j] !in targets;
        assert crossed[k + 1] == Target(scene, crossed).value;
        forall j | 0 <= j < k + 1 ensures crossed[j] !in targets {
          if j > 0 {
            assert crossed[j] == crossed[1..][j - 1];
          }
        }
      } else {
        forall j | 0 <= j < |crossed| ensures crossed[j] !in targets {
          if j > 0 {
            assert crossed[j] == crossed[1..][j - 1];
          }
        }
      }
    } else if crossed != [] {
      assert IntersectObjects(crossed, targets)[0] == crossed[0];
    }
  }

  // Properties of the highlights of one object.

  /** Hovering brightens the emissive to 0x555555 when there is one, else lightens the colour 20% toward white; the old value is cached. */
  lemma HoverHighlights(l: Look)
    ensures l.emissive.Some? ==>
      HoverLook(l).emissive == Some(HoverEmissive) && HoverLook(l).originalEmissive == l.emissive && HoverLook(l).color == l.color
    ensures l.emissive.None? && l.color.Some? ==>
      HoverLook(l).color == Some(Lerp(l.color.value, White, 0.2)) && HoverLook(l).originalColor == l.color
      && HoverLook(l).emissive == l.emissive
  {
  }

  /** Hover followed by leave, on an object with no cache entry, restores the look exactly and leaves no cache. */
  lemma HoverThenLeaveRestores(l: Look)
    requires Clean(l)
    ensures LeaveLook(HoverLook(l)) == l
  {
  }

  /** Select followed by unselect, on an object with no cache entry, restores the look exactly and leaves no cache. */
  lemma SelectThenUnselectRestores(l: Look)
    requires Clean(l)
    ensures UnselectLook(SelectLook(l)) == l
  {
  }

  /** Lightening toward white keeps every channel in [0, 1] and never darkens it. */
  lemma LerpTowardWhite(c: Colour)
    requires 0.0 <= c.r <= 1.0 && 0.0 <= c.g <= 1.0 && 0.0 <= c.b <= 1.0
    ensures var d := Lerp(c, White, 0.2);
      c.r <= d.r <= 1.0 && c.g <= d.g <= 1.0 && c.b <= d.b <= 1.0
  {
  }

  // One object's life under pointer events. For a single object the manager
  // reduces to four events: the pointer enters it (it becomes `hoveredObject`),
  // leaves it, a click picks it (it becomes `selectedObject`), or a click
  // elsewhere drops it.

  datatype Event = Enter | Exit | Pick | Drop

  datatype ObjState = ObjState(hovered: bool, selected: bool, look: Look)

  /** The effect of one event on one object, as js/interactions.js is written. */
  function Step(s: ObjState, e: Event): ObjState {
    match e
    case Enter => if s.hovered then s else s.(hovered := true, look := if s.selected then s.look else HoverLook(s.look))
    case Exit => if !s.hovered then s else s.(hovered := false, look := LeaveLook(s.look))
    case Pick => if s.selected then s else s.(selected := true, look := SelectLook(s.look))
    case Drop => if !s.selected then s else s.(selected := false, look := UnselectLook(s.look))
  }

  function Run(s: ObjState, events: seq<Event>): ObjState
    decreases |events|
  {
    if events == [] then s else Run(Step(s, events[0]), events[1..])
  }

  /**
   * As written, hovering an object, clicking it, moving off and clicking
   * empty space leaves it neither hovered nor selected but still lit at
   * 0x555555: the select overwrote the cache with the hover colour.
   */
  lemma SharedCacheLeavesHighlight(e: Colour)
    requires e != HoverEmissive
    ensures var l := Look(Some(e), None, None, None);
      var s := Run(ObjState(false, false, l), [Enter, Pick, Exit, Drop]);
      !s.hovered && !s.selected && s.look.emissive == Some(HoverEmissive) && s.look != l
  {
    var l := Look(Some(e), None, None, None);
    var s0 := ObjState(false, false, l);
    var s1 := Step(s0, Enter);
    var s2 := Step(s1, Pick);
    var s3 := Step(s2, Exit);
    var s4 := Step(s3, Drop);
    assert s4.look.emissive == Some(HoverEmissive);
    assert Run(s0, [Enter, Pick, Exit, Drop]) == s4 by {
      assert [Enter, Pick, Exit, Drop][1..] == [Pick, Exit, Drop];
      assert [Pick, Exit, Drop][1..] == [Exit, Drop];
      assert [Exit, Drop][1..] == [Drop];
    }
  }

  /**
   * As written, clicking an object, moving onto it and moving off again
   * leaves it selected but no longer lit at 0x777777: the hover was skipped
   * for the selected object, yet the leave restored the select's cache.
   */
  lemma LeaveDropsSelectHighlight(e: Colour)
    requires e != SelectEmissive
    ensures var l := Look(Some(e), None, None, None);
      var s := Run(ObjState(false, false, l), [Pick, Enter, Exit]);
      !s.hovered && s.selected && s.look.emissive == Some(e)
  {
    var s0 := ObjState(false, false, Look(Some(e), None, None, None));
    var s3 := Step(Step(Step(s0, Pick), Enter), Exit);
    assert s3.look.emissive == Some(e);
    assert Run(s0, [Pick, Enter, Exit]) == s3 by {
      assert [Pick, Enter, Exit][1..] == [Enter, Exit];
      assert [Enter, Exit][1..] == [Exit];
    }
  }

  /** With the corrected leave, the same events keep the selected object lit at 0x777777. */
  lemma LeaveSparesSelectHighlight(e: Colour)
    ensures var l := Look(Some(e), None, None, None);
      var s := RunFixed(ObjState(false, false, l), [Pick, Enter, Exit]);
      !s.hovered && s.selected && s.look.emissive == Some(SelectEmissive)
  {
    var s0 := ObjState(false, false, Look(Some(e), None, None, None));
    var s3 := StepFixed(StepFixed(StepFixed(s0, Pick), Enter), Exit);
    assert s3.look.emissive == Some(SelectEmissive);
    assert RunFixed(s0, [Pick, Enter, Exit]) == s3 by {
      assert [Pick, Enter, Exit][1..] == [Enter, Exit];
      assert [Enter, Exit][1..] == [Exit];
    }
  }

  /** Leave that does not restore the emissive of the selected object; the colour cache is still restored. */
  function LeaveLookFixed(l: Look, selected: bool): Look {
    if l.originalEmissive.Some? then (if selected then l else l.(emissive := l.originalEmissive, originalEmissive := None))
    else if l.originalColor.Some? then l.(color := l.originalColor, originalColor := None)
    else l
  }

  /** Select that keeps an emissive already cached by a hover. */
  function SelectLookFixed(l: Look): Look {
    if l.emissive.Some? then
      l.(originalEmissive := if l.originalEmissive.Some? then l.originalEmissive else l.emissive, emissive := Some(SelectEmissive))
    else l
  }

  /** The corrected effect of one event on one object. */
  function StepFixed(s: ObjState, e: Event): ObjState {
    match e
    case Enter => if s.hovered then s else s.(hovered := true, look := if s.selected then s.look else HoverLook(s.look))
    case Exit => if !s.hovered then s else s.(hovered := false, look := LeaveLookFixed(s.look, s.selected))
    case Pick => if s.selected then s else s.(selected := true, look := SelectLookFixed(s.look))
    case Drop => if !s.selected then s else s.(selected := false, look := UnselectLook(s.look))
  }

  function RunFixed(s: ObjState, events: seq<Event>): ObjState
    decreases |events|
  {
    if events == [] then s else RunFixed(StepFixed(s, events[0]), events[1..])
  }

  /**
   * What the corrected object looks like in each state, for its original
   * clean look `orig`: idle, the original; hovered only, the original or its
   * hover highlight; selected with an emissive, lit at 0x777777 with the
   * original cached; selected without one, the original or its hover highlight.
   */
  ghost predicate Shows(orig: Look, s: ObjState) {
    if !s.hovered && !s.selected then s.look == orig
    else if !s.selected then s.look == orig || s.look == HoverLook(orig)
    else if orig.emissive.Some? then s.look == orig.(emissive := Some(SelectEmissive), originalEmissive := orig.emissive)
    else s.look == orig || (s.hovered && s.look == HoverLook(orig))
  }

  lemma StepFixedShows(orig: Look, s: ObjState, e: Event)
    requires Clean(orig) && Shows(orig, s)
    ensures Shows(orig, StepFixed(s, e))
  {
  }

  /**
   * With the corrected leave and select, any sequence of events keeps the
   * object's look as `Shows` says; in particular an object neither hovered
   * nor selected always shows its original look with no cache entry.
   */
  lemma {:induction false} FixedRunRestores(orig: Look, s: ObjState, events: seq<Event>)
    requires Clean(orig) && Shows(orig, s)
    ensures Shows(orig, RunFixed(s, events))
    ensures var t := RunFixed(s, events); !t.hovered && !t.selected ==> t.look == orig
    decreases |events|
  {
    if events != [] {
      StepFixedShows(orig, s, events[0]);
      FixedRunRestores(orig, StepFixed(s, events[0]), events[1..]);
    }
  }
}
