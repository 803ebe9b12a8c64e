/** Panning and zooming the map viewport (`usePanZoom`, and the inline handlers of the
    component). The view is an offset (where world (0, 0) sits in the viewport) and a
    zoom; a screen point s shows the world point (s - offset) / zoom.

    The wheel scales the zoom by 0.9 or 1.1, clamped to [0.5, 2.4], and moves the offset
    so that the world point under the cursor stays under it. A primary-button press off
    the nodes starts a pan that remembers `origin = client - offset`; each move while
    panning sets `offset = client - origin`; releasing ends the pan. The component also
    remembers which pointer started the pan and ignores the others. */
module PanZoom {
  import opened Seqs
  import opened Geometry

  const MIN_ZOOM: real := 0.5
  const MAX_ZOOM: real := 2.4

  /** The part of `getBoundingClientRect()` the wheel handler reads. */
  datatype Rect = Rect(left: real, top: real)

  /** `event.deltaY > 0 ? 0.9 : 1.1`: scrolling down zooms out. */
  function ScaleFactor(deltaY: real): real {
    if deltaY > 0.0 then 0.9 else 1.1
  }

  /** `Math.min(Math.max(zoom * scaleFactor, 0.5), 2.4)` */
  function NextZoom(zoom: real, deltaY: real): (r: real)
    ensures MIN_ZOOM <= r <= MAX_ZOOM
    ensures MIN_ZOOM <= zoom * ScaleFactor(deltaY) <= MAX_ZOOM ==> r == zoom * ScaleFactor(deltaY)
    ensures zoom * ScaleFactor(deltaY) < MIN_ZOOM ==> r == MIN_ZOOM
    ensures zoom * ScaleFactor(deltaY) > MAX_ZOOM ==> r == MAX_ZOOM
  {
    Min(Max(zoom * ScaleFactor(deltaY), 0.5), 2.4)
  }

  /** Within the allowed range, scrolling down never zooms in and scrolling up never
      zooms out. */
  lemma NextZoomDirection(zoom: real, deltaY: real)
    requires MIN_ZOOM <= zoom <= MAX_ZOOM
    ensures deltaY > 0.0 ==> NextZoom(zoom, deltaY) <= zoom
    ensures deltaY <= 0.0 ==> NextZoom(zoom, deltaY) >= zoom
  {
  }

  /** The wheel leaves the zoom where it is exactly at the end of the range it scrolls
      towards: at 0.5 scrolling down, at 2.4 scrolling up. */
  lemma NextZoomFixed(zoom: real, deltaY: real)
    requires MIN_ZOOM <= zoom <= MAX_ZOOM
    ensures NextZoom(zoom, deltaY) == zoom <==>
      (deltaY > 0.0 && zoom == MIN_ZOOM) || (deltaY <= 0.0 && zoom == MAX_ZOOM)
  {
    if deltaY > 0.0 {
      assert zoom * 0.9 < zoom;
    } else {
      assert zoom * 1.1 > zoom;
    }
  }

  /** The world coordinate shown at screen coordinate s: `(s - offset) / zoom`. */
  function World(s: real, offset: real, zoom: real): real
    requires zoom != 0.0
  {
    (s - offset) / zoom
  }

  /** `mouse - worldAt(mouse) * nextZoom` on one axis. */
  function AnchoredOffset(mouse: real, offset: real, zoom: real, nextZoom: real): (r: real)
    requires zoom > 0.0 && nextZoom > 0.0
    ensures World(mouse, r, nextZoom) == World(mouse, offset, zoom)
  {
    var w := World(mouse, offset, zoom);
    assert mouse - (mouse - w * nextZoom) == w * nextZoom;
    mouse - w * nextZoom
  }

  /** An unchanged zoom gives an unchanged offset. */
  lemma AnchoredSameZoom(mouse: real, offset: real, zoom: real)
    requires zoom > 0.0
    ensures AnchoredOffset(mouse, offset, zoom, zoom) == offset
  {
    assert (mouse - offset) / zoom * zoom == mouse - offset;
  }

  /** The anchored offset is the only one that keeps the world point under the cursor. */
  lemma AnchoredUnique(mouse: real, offset: real, zoom: real, nextZoom: real, o: real)
    requires zoom > 0.0 && nextZoom > 0.0
    requires World(mouse, o, nextZoom) == World(mouse, offset, zoom)
    ensures o == AnchoredOffset(mouse, offset, zoom, nextZoom)
  {
    var w := World(mouse, offset, zoom);
    assert (mouse - o) / nextZoom == w;
    assert mouse - o == w * nextZoom;
  }

  /** `{ x: client.x - offset.x, y: client.y - offset.y }`, taken when a pan starts. */
  function PanOrigin(client: Point, offset: Point): Point {
    Point(client.x - offset.x, client.y - offset.y)
  }

  /** `{ x: client.x - origin.x, y: client.y - origin.y }`, set on each pan move. */
  function PanOffset(client: Point, origin: Point): Point {
    Point(client.x - origin.x, client.y - origin.y)
  }

  /** While panning, the offset follows the pointer: it is the offset at the start plus
      the pointer's travel since, so a pointer back at its start changes nothing. */
  lemma PanFollowsPointer(start: Point, offset: Point, client: Point)
    ensures PanOffset(client, PanOrigin(start, offset)) ==
      Point(offset.x + (client.x - start.x), offset.y + (client.y - start.y))
    ensures PanOffset(start, PanOrigin(start, offset)) == offset
  {
  }

  /** The state of `usePanZoom`. */
  class View {
    var offset: Point
    var zoom: real
    var isPanning: bool
    var origin: Point

    ghost predicate Valid()
      reads this
    {
      MIN_ZOOM <= zoom <= MAX_ZOOM
    }

    /** `useState({x: 0, y: 0})`, `useState(1)`, `useState(false)`, `useState({x: 0, y: 0})` */
    constructor()
      ensures Valid()
      ensures offset == Point(0.0, 0.0) && zoom == 1.0 && !isPanning && origin == Point(0.0, 0.0)
    {
      offset := Point(0.0, 0.0);
      zoom := 1.0;
      isPanning := false;
      origin := Point(0.0, 0.0);
    }

    /** `onWheel`: without a viewport element nothing happens; otherwise the zoom steps
        and, unless it stayed put, the offset moves so that the world point under the
        cursor (client position relative to the viewport) stays under it. */
    method OnWheel(viewport: Option<Rect>, deltaY: real, client: Point)
      requires Valid()
      modifies this
      ensures Valid()
      ensures isPanning == old(isPanning) && origin == old(origin)
      ensures viewport.None? ==> zoom == old(zoom) && offset == old(offset)
      ensures viewport.Some? ==> zoom == NextZoom(old(zoom), deltaY)
      ensures zoom == old(zoom) ==> offset == old(offset)
      ensures viewport.Some? ==>
        var mouse := Point(client.x - viewport.value.left, client.y - viewport.value.top);
        World(mouse.x, offset.x, zoom) == World(mouse.x, old(offset.x), old(zoom)) &&
        World(mouse.y, offset.y, zoom) == World(mouse.y, old(offset.y), old(zoom))
    {
      if viewport.None? {
        return;
      }
      var nextZoom := NextZoom(zoom, deltaY);
      if nextZoom == zoom {
        return;
      }
      var rect := viewport.value;
      var mouse := Point(client.x - rect.left, client.y - rect.top);
      offset := Point(AnchoredOffset(mouse.x, offset.x, zoom, nextZoom), AnchoredOffset(mouse.y, offset.y, zoom, nextZoom));
      zoom := nextZoom;
    }

    /** `onPointerDownCanvas`: only the primary button, and not on a node, starts a pan. */
    method PointerDown(button: int, onNode: bool, client: Point)
      modifies this
      ensures offset == old(offset) && zoom == old(zoom)
      ensures button == 0 && !onNode ==> isPanning && origin == PanOrigin(client, offset)
      ensures !(button == 0 && !onNode) ==> isPanning == old(isPanning) && origin == old(origin)
    {
      if button != 0 {
        return;
      }
      if onNode {
        return;
      }
      isPanning := true;
      origin := PanOrigin(client, offset);
    }

    /** `onPointerMoveCanvas`: a move while not panning does nothing. */
    method PointerMove(client: Point)
      modifies this
      ensures zoom == old(zoom) && isPanning == old(isPanning) && origin == old(origin)
      ensures isPanning ==> offset == PanOffset(client, origin)
      ensures !isPanning ==> offset == old(offset)
    {
      if !isPanning {
        return;
      }
      offset := PanOffset(client, origin);
    }

    /** `onPointerUpCanvas`: always ends the pan. */
    method PointerUp()
      modifies this
      ensures !isPanning
      ensures offset == old(offset) && zoom == old(zoom) && origin == old(origin)
    {
      isPanning := false;
    }
  }

  /** The component's own pan and zoom handlers: the same steps as the hook's, with the
      pointer that started the pan remembered in `pointerIdRef`. The component only
      registers its wheel listener once the viewport exists, so it always has a rect. */
  class MapView {
    const view: View
    /** `pointerIdRef.current`; None for `null`. */
    var pointerId: Option<int>

    /** A pan is under way exactly when a pointer is remembered. */
    ghost predicate Valid()
      reads this, view
    {
      view.Valid() && (pointerId.Some? <==> view.isPanning)
    }

    constructor()
      ensures Valid() && fresh(view)
      ensures view.offset == Point(0.0, 0.0) && view.zoom == 1.0 && !view.isPanning && pointerId == None
    {
      view := new View();
      pointerId := None;
    }

    /** `handleWheel` */
    method Wheel(rect: Rect, deltaY: real, client: Point)
      requires Valid()
      modifies view
      ensures Valid()
      ensures view.isPanning == old(view.isPanning) && view.origin == old(view.origin)
      ensures view.zoom == NextZoom(old(view.zoom), deltaY)
      ensures view.zoom == old(view.zoom) ==> view.offset == old(view.offset)
      ensures
        var mouse := Point(client.x - rect.left, client.y - rect.top);
        World(mouse.x, view.offset.x, view.zoom) == World(mouse.x, old(view.offset.x), old(view.zoom)) &&
        World(mouse.y, view.offset.y, view.zoom) == World(mouse.y, old(view.offset.y), old(view.zoom))
    {
      view.OnWheel(Some(rect), deltaY, client);
    }

    /** `handlePointerDown`: a pan that starts takes over the remembered pointer. */
    method PointerDown(button: int, onNode: bool, client: Point, id: int)
      requires Valid()
      modifies this, view
      ensures Valid()
      ensures view.offset == old(view.offset) && view.zoom == old(view.zoom)
      ensures button == 0 && !onNode ==>
        view.isPanning && view.origin == PanOrigin(client, view.offset) && pointerId == Some(id)
      ensures !(button == 0 && !onNode) ==>
        view.isPanning == old(view.isPanning) && view.origin == old(view.origin) && pointerId == old(pointerId)
    {
      if button != 0 {
        return;
      }
      if onNode {
        return;
      }
      view.PointerDown(button, onNode, client);
      pointerId := Some(id);
    }

    /** `handlePointerMove`: only the pan's own pointer moves the view. */
    method PointerMove(client: Point, id: int)
      requires Valid()
      modifies view
      ensures Valid()
      ensures view.zoom == old(view.zoom) && view.isPanning == old(view.isPanning) && view.origin == old(view.origin)
      ensures pointerId == Some(id) ==> view.offset == PanOffset(client, view.origin)
      ensures pointerId != Some(id) ==> view.offset == old(view.offset)
    {
      if !view.isPanning || pointerId != Some(id) {
        return;
      }
      view.PointerMove(client);
    }

    /** `handlePointerUp` and `handlePointerCancel`, which do the same: only the pan's own
        pointer ends it. */
    method PointerEnd(id: int)
      requires Valid()
      modifies this, view
      ensures Valid()
      ensures view.offset == old(view.offset) && view.zoom == old(view.zoom) && view.origin == old(view.origin)
      ensures old(pointerId) == Some(id) ==> pointerId == None && !view.isPanning
      ensures old(pointerId) != Some(id) ==> pointerId == old(pointerId) && view.isPanning == old(view.isPanning)
    {
      if pointerId != Some(id) {
        return;
      }
      pointerId := None;
      view.PointerUp();
    }
  }
}
