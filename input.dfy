/** The input manager: turns pointer and wheel events into game events. A press
    starts a potential drag; moving more than five pixels while pressed makes it
    a drag, which pans the camera; a release that is not the end of a drag is a
    click, unless a resource under the pointer already claimed it. */
module InputManager {
  import opened Common
  import opened GameConfig
  import opened IsoMath

  const DRAG_THRESHOLD: real := 5.0

  /** The asset types whose click is a resource click. */
  const RESOURCE_TYPES: seq<string> := ["tree", "rock", "cotton_bush", "clay_node", "apple_tree"]

  /** What the handlers read of a pointer: its screen position, whether a button
      is held, the previous position, the position in world coordinates under
      the camera, and which button is involved. */
  datatype Pointer = Pointer(x: real, y: real, isDown: bool, prevPosition: Option<Point>,
                             world: Point, rightButtonDown: bool, button: int)

  /** The data a game object carries: server id, asset type and grid cell, each
      possibly unset. */
  datatype GameObjectData = GameObjectData(serverId: Option<string>, kind: Option<string>,
                                           gridX: Option<int>, gridY: Option<int>)

  /** The game events the manager emits. */
  datatype InputEvent =
    | TileClicked(x: int, y: int)
    | TileInteract(x: int, y: int)
    | TileHover(x: int, y: int)
    | ResourceClicked(serverId: string, kind: string, gx: Option<int>, gy: Option<int>)

  /** The pointer has left the disc of radius 5 around the press position:
      `Distance.Between(...) > 5`, compared on squares (both sides are
      non-negative). */
  predicate DragExceeded(p: Pointer, startX: real, startY: real)
  {
    (p.x - startX) * (p.x - startX) + (p.y - startY) * (p.y - startY) > DRAG_THRESHOLD * DRAG_THRESHOLD
  }

  /** A release at the press position is never a drag; one six pixels away
      horizontally always is. */
  lemma DragThresholdExamples(p: Pointer, startX: real, startY: real)
    ensures p.x == startX && p.y == startY ==> !DragExceeded(p, startX, startY)
    ensures p.x == startX + 6.0 && p.y == startY ==> DragExceeded(p, startX, startY)
  {
  }

  /** The object is a resource the player may click: it has a (non-empty,
      hence truthy) server id and one of the five resource types. */
  predicate IsResourceObject(obj: GameObjectData)
  {
    obj.serverId.Some? && obj.serverId.value != "" && obj.kind.Some? && obj.kind.value in RESOURCE_TYPES
  }

  /** The event a resource click emits. */
  function ResourceEvent(obj: GameObjectData): (e: InputEvent)
    requires IsResourceObject(obj)
    ensures e.ResourceClicked? && e.serverId == obj.serverId.value && e.kind == obj.kind.value
    ensures e.gx == obj.gridX && e.gy == obj.gridY
  {
    ResourceClicked(obj.serverId.value, obj.kind.value, obj.gridX, obj.gridY)
  }

  /** `handleZoom`: a wheel step down zooms out by 0.1 but not below the
      minimum; any other step zooms in by 0.1 but not above the maximum. */
  function ZoomAfter(zoom: real, deltaY: real): (z: real)
    ensures deltaY > 0.0 ==> z >= MIN_ZOOM && (z == zoom - ZOOM_SPEED || z == MIN_ZOOM)
    ensures deltaY <= 0.0 ==> z <= MAX_ZOOM && (z == zoom + ZOOM_SPEED || z == MAX_ZOOM)
    ensures MIN_ZOOM <= zoom <= MAX_ZOOM ==> MIN_ZOOM <= z <= MAX_ZOOM
    ensures zoom > 0.0 ==> z > 0.0
  {
    if deltaY > 0.0 then
      (if MIN_ZOOM >= zoom - ZOOM_SPEED then MIN_ZOOM else zoom - ZOOM_SPEED)
    else
      (if MAX_ZOOM <= zoom + ZOOM_SPEED then MAX_ZOOM else zoom + ZOOM_SPEED)
  }

  /** Zooming in then out (or out then in) well inside the bounds returns to
      the starting zoom. */
  lemma ZoomStepsCancel(zoom: real)
    requires MIN_ZOOM + ZOOM_SPEED <= zoom <= MAX_ZOOM - ZOOM_SPEED
    ensures ZoomAfter(ZoomAfter(zoom, -1.0), 1.0) == zoom
    ensures ZoomAfter(ZoomAfter(zoom, 1.0), -1.0) == zoom
  {
  }

  /** The click is a right click: the right button is held or was the one released. */
  predicate IsRightClick(p: Pointer)
  {
    p.rightButtonDown || p.button == 2
  }

  /** `handleClick`: the cell under the pointer's world position, as a
      `tile-interact` event for a right click and `tile-clicked` otherwise. */
  function ClickEvent(p: Pointer, originX: real, originY: real): (e: InputEvent)
    ensures e.TileInteract? || e.TileClicked?
    ensures e.TileInteract? <==> IsRightClick(p)
    ensures (e.x, e.y) == IsoToGrid(p.world.x, p.world.y, originX, originY)
  {
    var cell := IsoToGrid(p.world.x, p.world.y, originX, originY);
    if IsRightClick(p) then TileInteract(cell.0, cell.1) else TileClicked(cell.0, cell.1)
  }

  /** A click whose world position is the screen position of a cell's centre
      names that cell. */
  lemma ClickOnCellCentre(p: Pointer, cx: int, cy: int, originX: real, originY: real)
    requires p.world == GridToIso(cx as real, cy as real, originX, originY)
    ensures ClickEvent(p, originX, originY).x == cx && ClickEvent(p, originX, originY).y == cy
  {
    CellRoundTrip(cx, cy, originX, originY);
  }

  class InputManager {
    const mapOriginX: real
    const mapOriginY: real
    var isDragging: bool
    var dragStartX: real
    var dragStartY: real
    var resourceClickHandled: bool
    /** The main camera's zoom and scroll, which the handlers update. */
    var zoom: real
    var scrollX: real
    var scrollY: real

    /** The camera zoom stays positive (it divides the pan). */
    ghost predicate Valid()
      reads this
    {
      zoom > 0.0
    }

    constructor (originX: real, originY: real, cameraZoom: real)
      requires cameraZoom > 0.0
      ensures mapOriginX == originX && mapOriginY == originY
      ensures !isDragging && dragStartX == 0.0 && dragStartY == 0.0 && !resourceClickHandled
      ensures zoom == cameraZoom && scrollX == 0.0 && scrollY == 0.0
      ensures Valid()
    {
      mapOriginX, mapOriginY := originX, originY;
      isDragging := false;
      dragStartX, dragStartY := 0.0, 0.0;
      resourceClickHandled := false;
      zoom, scrollX, scrollY := cameraZoom, 0.0, 0.0;
    }

    /** `pointerdown`: records where the press started and forgets any drag. */
    method PointerDown(p: Pointer)
      modifies this
      ensures dragStartX == p.x && dragStartY == p.y && !isDragging
      ensures resourceClickHandled == old(resourceClickHandled)
      ensures zoom == old(zoom) && scrollX == old(scrollX) && scrollY == old(scrollY)
    {
      dragStartX := p.x;
      dragStartY := p.y;
      isDragging := false;
    }

    /** `pointermove`: while pressed, becomes a drag past the threshold and, once
        dragging, pans the camera against the pointer's motion; always emits the
        hovered cell. */
    method PointerMove(p: Pointer) returns (hover: InputEvent)
      requires Valid()
      modifies this
      ensures Valid() && zoom == old(zoom)
      ensures isDragging == (old(isDragging) || (p.isDown && DragExceeded(p, dragStartX, dragStartY)))
      ensures isDragging && !old(isDragging) ==> p.isDown
      ensures p.isDown && isDragging && p.prevPosition.Some? ==>
                scrollX == old(scrollX) - (p.x - p.prevPosition.value.x) / zoom &&
                scrollY == old(scrollY) - (p.y - p.prevPosition.value.y) / zoom
      ensures !(p.isDown && isDragging && p.prevPosition.Some?) ==> scrollX == old(scrollX) && scrollY == old(scrollY)
      ensures dragStartX == old(dragStartX) && dragStartY == old(dragStartY)
      ensures resourceClickHandled == old(resourceClickHandled)
      ensures var cell := IsoToGrid(p.world.x, p.world.y, mapOriginX, mapOriginY);
                hover == TileHover(cell.0, cell.1)
    {
      if p.isDown {
        if DragExceeded(p, dragStartX, dragStartY) {
          isDragging := true;
        }
        if isDragging {
          if p.prevPosition.Some? {
            scrollX := scrollX - (p.x - p.prevPosition.value.x) / zoom;
            scrollY := scrollY - (p.y - p.prevPosition.value.y) / zoom;
          }
        }
      }
      var cell := IsoToGrid(p.world.x, p.world.y, mapOriginX, mapOriginY);
      hover := TileHover(cell.0, cell.1);
    }

    /** `pointerup`: the end of a drag emits nothing; a release already claimed by
        a resource emits nothing and releases the claim; anything else is a click. */
    method PointerUp(p: Pointer) returns (emitted: Option<InputEvent>)
      modifies this
      ensures old(isDragging) ==> emitted.None? && resourceClickHandled == old(resourceClickHandled)
      ensures !old(isDragging) && old(resourceClickHandled) ==> emitted.None?
      ensures !old(isDragging) && !old(resourceClickHandled) ==>
                emitted == Some(ClickEvent(p, mapOriginX, mapOriginY))
      ensures !old(isDragging) ==> !resourceClickHandled
      ensures !isDragging
      ensures dragStartX == old(dragStartX) && dragStartY == old(dragStartY)
      ensures zoom == old(zoom) && scrollX == old(scrollX) && scrollY == old(scrollY)
    {
      if isDragging {
        isDragging := false;
        return None;
      }
      if resourceClickHandled {
        resourceClickHandled := false;
        return None;
      }
      emitted := Some(ClickEvent(p, mapOriginX, mapOriginY));
    }

    /** `gameobjectup`: ignored during a drag; on a resource, claims the release
        and emits `resource-clicked`. */
    method GameObjectUp(obj: GameObjectData) returns (emitted: Option<InputEvent>)
      modifies this
      ensures !old(isDragging) && IsResourceObject(obj) ==>
                emitted == Some(ResourceEvent(obj)) && resourceClickHandled
      ensures old(isDragging) || !IsResourceObject(obj) ==>
                emitted.None? && resourceClickHandled == old(resourceClickHandled)
      ensures isDragging == old(isDragging) && dragStartX == old(dragStartX) && dragStartY == old(dragStartY)
      ensures zoom == old(zoom) && scrollX == old(scrollX) && scrollY == old(scrollY)
    {
      if isDragging {
        return None;
      }
      if IsResourceObject(obj) {
        resourceClickHandled := true;
        return Some(ResourceEvent(obj));
      }
      emitted := None;
    }

    /** A release over a game object: the engine delivers `gameobjectup` to the
        object first and `pointerup` to the scene right after. A resource click
        then emits `resource-clicked` alone, never a tile click, and every
        release leaves neither a drag nor a claim behind. */
    method ReleaseOverObject(p: Pointer, obj: GameObjectData) returns (emitted: seq<InputEvent>)
      modifies this
      ensures old(isDragging) ==> emitted == []
      ensures !old(isDragging) && IsResourceObject(obj) ==> emitted == [ResourceEvent(obj)]
      ensures !old(isDragging) && !IsResourceObject(obj) && !old(resourceClickHandled) ==>
                emitted == [ClickEvent(p, mapOriginX, mapOriginY)]
      ensures !isDragging
      ensures !old(isDragging) ==> !resourceClickHandled
      ensures old(isDragging) ==> resourceClickHandled == old(resourceClickHandled)
      ensures zoom == old(zoom) && scrollX == old(scrollX) && scrollY == old(scrollY)
    {
      var first := GameObjectUp(obj);
      var second := PointerUp(p);
      emitted := (if first.Some? then [first.value] else []) + (if second.Some? then [second.value] else []);
    }

    /** The wheel: moves the zoom by one step within the bounds. */
    method HandleZoom(deltaY: real)
      requires Valid()
      modifies this
      ensures zoom == ZoomAfter(old(zoom), deltaY)
      ensures MIN_ZOOM <= old(zoom) <= MAX_ZOOM ==> MIN_ZOOM <= zoom <= MAX_ZOOM
      ensures isDragging == old(isDragging) && resourceClickHandled == old(resourceClickHandled)
      ensures dragStartX == old(dragStartX) && dragStartY == old(dragStartY)
      ensures scrollX == old(scrollX) && scrollY == old(scrollY)
      ensures Valid()
    {
      if deltaY > 0.0 {
        zoom := if MIN_ZOOM >= zoom - ZOOM_SPEED then MIN_ZOOM else zoom - ZOOM_SPEED;
      } else {
        zoom := if MAX_ZOOM <= zoom + ZOOM_SPEED then MAX_ZOOM else zoom + ZOOM_SPEED;
      }
    }
  }
}
