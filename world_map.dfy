/** The world map widget: a persistent list of map markers (a widget and
    the world location it stands for), the canvas panel those widgets are
    shown on, the linear mapping from world coordinates to map coordinates,
    and the zoom level. The canvas panel is the engine's; only the parts the
    map widget uses are modelled: its ordered children, the layout of each
    child's slot, and its cached local size. */
module WorldMap {
  import opened Options
  import opened Vectors

  /** A user widget; only its identity matters here. */
  class UserWidget {
    constructor ()
    {
    }
  }

  /** No element occurs twice. */
  ghost predicate NoDuplicates<T>(s: seq<T>) {
    forall i, j :: 0 <= i < j < |s| ==> s[i] != s[j]
  }

  /** The sequence with every occurrence of x removed, order kept. */
  function Without<T(==)>(s: seq<T>, x: T): (r: seq<T>)
    ensures x !in r
    ensures forall i :: 0 <= i < |r| ==> r[i] in s && r[i] != x
    ensures forall i :: 0 <= i < |s| && s[i] != x ==> s[i] in r
    ensures x !in s ==> r == s
    ensures NoDuplicates(s) ==> NoDuplicates(r)
    ensures |r| <= |s|
  {
    if |s| == 0 then []
    else if s[0] == x then Without(s[1..], x)
    else [s[0]] + Without(s[1..], x)
  }

  /** The layout of a canvas slot: position, alignment, auto-size, size. */
  datatype SlotLayout = SlotLayout(position: Vec2, alignment: Vec2, autoSize: bool, size: Vec2)

  /** The layout of a freshly added canvas slot. */
  const DefaultSlot: SlotLayout := SlotLayout(Vec2(0.0, 0.0), Vec2(0.0, 0.0), false, Vec2(100.0, 30.0))

  /** The engine's canvas panel. */
  class CanvasPanel {
    var children: seq<UserWidget>
    var slots: map<UserWidget, SlotLayout>
    /** The local size of the panel's cached geometry. */
    var localSize: Vec2

    /** Each child appears once and owns exactly one slot. */
    ghost predicate Valid() reads this {
      NoDuplicates(children) && slots.Keys == set w | w in children
    }

    constructor (localSize: Vec2)
      ensures Valid() && children == [] && this.localSize == localSize
    {
      children := [];
      slots := map[];
      this.localSize := localSize;
    }

    predicate HasChild(w: UserWidget) reads this {
      w in children
    }

    /** Adds a child in a new default slot at the end; a widget that is
        already a child is first taken out of its old slot. */
    method AddChild(w: UserWidget)
      requires Valid()
      modifies this`children, this`slots
      ensures Valid()
      ensures children == Without(old(children), w) + [w]
      ensures slots == old(slots)[w := DefaultSlot]
    {
      children := Without(children, w) + [w];
      slots := slots[w := DefaultSlot];
    }

    /** Removes a child and its slot. */
    method RemoveChild(w: UserWidget)
      requires Valid()
      modifies this`children, this`slots
      ensures Valid()
      ensures children == Without(old(children), w)
      ensures slots == old(slots) - {w}
    {
      children := Without(children, w);
      slots := slots - {w};
    }
  }

  /** An axis-aligned box of the world. */
  datatype Box = Box(min: Vec3, max: Vec3)

  /** The box has extent on both horizontal axes, so positions can be
      normalised against it. */
  predicate Spans(b: Box) {
    b.min.x != b.max.x && b.min.y != b.max.y
  }

  /** A marker on the map: the widget that draws it (possibly null) and the
      world location it marks. */
  datatype WorldMapMarker = WorldMapMarker(widget: UserWidget?, worldLocation: Vec3)

  /** Map coordinates of a world location: each horizontal axis normalised
      against the bounds and scaled by the map size. Height is ignored and
      the y axis is not flipped. */
  function MapPosition(b: Box, size: Vec2, loc: Vec3): (p: Vec2)
    requires Spans(b)
  {
    Vec2((loc.x - b.min.x) / (b.max.x - b.min.x) * size.x,
         (loc.y - b.min.y) / (b.max.y - b.min.y) * size.y)
  }

  /** The inverse mapping from map coordinates back to the world, at a
      chosen height. */
  function MapToWorld(b: Box, size: Vec2, p: Vec2, z: real): (loc: Vec3)
    requires size.x != 0.0 && size.y != 0.0
  {
    Vec3(b.min.x + p.x / size.x * (b.max.x - b.min.x),
         b.min.y + p.y / size.y * (b.max.y - b.min.y), z)
  }

  /** The bounds' minimum corner goes to the map origin and the maximum
      corner to the far corner of the map. */
  lemma MapPositionCorners(b: Box, size: Vec2)
    requires Spans(b)
    ensures MapPosition(b, size, b.min) == Vec2(0.0, 0.0)
    ensures MapPosition(b, size, b.max) == size
  {
  }

  /** Locations that differ only in height share a map position. */
  lemma MapPositionIgnoresHeight(b: Box, size: Vec2, loc: Vec3, z: real)
    requires Spans(b)
    ensures MapPosition(b, size, loc.(z := z)) == MapPosition(b, size, loc)
  {
  }

  /** With bounds and map size positive on an axis, the mapping keeps order
      on that axis: further along in the world is further along on the map
      (on y as well, so there is no flip). */
  lemma MapPositionMonotone(b: Box, size: Vec2, a: Vec3, c: Vec3)
    requires Spans(b)
    ensures b.min.x < b.max.x && size.x > 0.0 && a.x < c.x ==>
      MapPosition(b, size, a).x < MapPosition(b, size, c).x
    ensures b.min.y < b.max.y && size.y > 0.0 && a.y < c.y ==>
      MapPosition(b, size, a).y < MapPosition(b, size, c).y
  {
    if b.min.x < b.max.x && size.x > 0.0 && a.x < c.x {
      ScaledOrder(a.x - b.min.x, c.x - b.min.x, b.max.x - b.min.x, size.x);
    }
    if b.min.y < b.max.y && size.y > 0.0 && a.y < c.y {
      ScaledOrder(a.y - b.min.y, c.y - b.min.y, b.max.y - b.min.y, size.y);
    }
  }

  /** Dividing by and then scaling with positive numbers keeps strict order. */
  lemma ScaledOrder(u: real, v: real, d: real, k: real)
    requires u < v && d > 0.0 && k > 0.0
    ensures u / d * k < v / d * k
  {
    assert u / d < v / d;
  }

  /** On a map of non-zero size the mapping loses nothing horizontally:
      mapping back recovers the world location at its own height. */
  lemma MapRoundTrip(b: Box, size: Vec2, loc: Vec3)
    requires Spans(b) && size.x != 0.0 && size.y != 0.0
    ensures MapToWorld(b, size, MapPosition(b, size, loc), loc.z) == loc
  {
    CancelScale(loc.x - b.min.x, b.max.x - b.min.x, size.x);
    CancelScale(loc.y - b.min.y, b.max.y - b.min.y, size.y);
  }

  /** Scaling by k and then dividing by k, and likewise for d, is the identity. */
  lemma CancelScale(u: real, d: real, k: real)
    requires d != 0.0 && k != 0.0
    ensures u / d * k / k * d == u
  {
    assert u / d * k / k == u / d;
  }

  /** The canvas children after the open-map loop: walking the markers in
      order, each non-null widget not yet a child is appended. */
  function Attach(cs: seq<UserWidget>, ms: seq<WorldMapMarker>): seq<UserWidget>
    decreases |ms|
  {
    if |ms| == 0 then cs
    else
      var w := ms[0].widget;
      Attach(if w != null && w !in cs then cs + [w] else cs, ms[1..])
  }

  /** The open-map loop keeps the old children in front, adds no duplicate,
      adds nothing but marker widgets, and leaves every marker's widget on
      the canvas. */
  lemma {:induction false} AttachProperties(cs: seq<UserWidget>, ms: seq<WorldMapMarker>)
    requires NoDuplicates(cs)
    ensures var r := Attach(cs, ms);
      NoDuplicates(r) && |cs| <= |r| && r[..|cs|] == cs &&
      (forall w :: w in r <==> w in cs || exists m :: m in ms && m.widget == w) &&
      (forall m :: m in ms && m.widget != null ==> m.widget in r)
    decreases |ms|
  {
    if |ms| > 0 {
      var w := ms[0].widget;
      var cs' := if w != null && w !in cs then cs + [w] else cs;
      assert NoDuplicates(cs');
      AttachProperties(cs', ms[1..]);
      var r := Attach(cs, ms);
      assert r == Attach(cs', ms[1..]);
      assert r[..|cs|] == r[..|cs'|][..|cs|];
      forall x
        ensures x in r <==> x in cs || exists m :: m in ms && m.widget == x
      {
        if x in r && x !in cs && x !in cs' {
          var m :| m in ms[1..] && m.widget == x;
          assert m in ms;
        }
        if x !in cs && exists m :: m in ms && m.widget == x {
          var m :| m in ms && m.widget == x;
          if m != ms[0] {
            assert m in ms[1..];
          }
        }
      }
      forall m | m in ms && m.widget != null
        ensures m.widget in r
      {
        if m != ms[0] {
          assert m in ms[1..];
        }
      }
    }
  }

  /** The slot layout every marker gets: centred on its map position, 32 by
      32, not auto-sized. */
  function MarkerLayout(p: Vec2): SlotLayout {
    SlotLayout(p, Vec2(0.5, 0.5), false, Vec2(32.0, 32.0))
  }

  /** The location of the last marker for a widget, if any. */
  function LastLocation(ms: seq<WorldMapMarker>, w: UserWidget): (l: Option<Vec3>)
    ensures l.Some? <==> exists i :: 0 <= i < |ms| && ms[i].widget == w
    ensures l.Some? ==> WorldMapMarker(w, l.value) in ms
    decreases |ms|
  {
    if |ms| == 0 then Option.None
    else
      match LastLocation(ms[1..], w)
      case Some(l) => Some(l)
      case None => if ms[0].widget == w then Some(ms[0].worldLocation) else Option.None
  }

  /** The slot layouts after the position-update loop: walking the markers
      in order, each marker whose widget has a slot on the canvas gets the
      marker layout at the map position of its location. */
  function Place(slots: map<UserWidget, SlotLayout>, b: Box, size: Vec2, ms: seq<WorldMapMarker>): map<UserWidget, SlotLayout>
    requires Spans(b)
    decreases |ms|
  {
    if |ms| == 0 then slots
    else
      var w := ms[0].widget;
      var slots' :=
        if w != null && w in slots then slots[w := MarkerLayout(MapPosition(b, size, ms[0].worldLocation))]
        else slots;
      Place(slots', b, size, ms[1..])
  }

  /** The position-update loop creates no slot and removes none; a widget's
      slot ends up at the map position of the last marker listed for it, and
      a slot whose widget has no marker keeps its layout. */
  lemma {:induction false} PlaceLastWins(slots: map<UserWidget, SlotLayout>, b: Box, size: Vec2, ms: seq<WorldMapMarker>, w: UserWidget)
    requires Spans(b)
    ensures var r := Place(slots, b, size, ms);
      r.Keys == slots.Keys &&
      (w in slots ==>
        r[w] == match LastLocation(ms, w)
                case Some(l) => MarkerLayout(MapPosition(b, size, l))
                case None => slots[w])
    decreases |ms|
  {
    if |ms| > 0 {
      var v := ms[0].widget;
      var slots' :=
        if v != null && v in slots then slots[v := MarkerLayout(MapPosition(b, size, ms[0].worldLocation))]
        else slots;
      PlaceLastWins(slots', b, size, ms[1..], w);
    }
  }

  class WorldMapWidget {
    /** The canvas the marker widgets are shown on (bound from the layout). */
    const markerCanvas: CanvasPanel?
    var persistentMarkers: seq<WorldMapMarker>
    var worldBounds: Box
    /** 1 is the normal scale; above 1 zooms in. */
    var zoomLevel: real

    ghost predicate Valid() reads this, markerCanvas {
      markerCanvas != null ==> markerCanvas.Valid()
    }

    constructor (markerCanvas: CanvasPanel?)
      requires markerCanvas != null ==> markerCanvas.Valid()
      ensures Valid() && this.markerCanvas == markerCanvas
      ensures persistentMarkers == [] && zoomLevel == 1.0 && worldBounds == Box(Zero, Zero)
    {
      this.markerCanvas := markerCanvas;
      persistentMarkers := [];
      worldBounds := Box(Zero, Zero);
      zoomLevel := 1.0;
    }

    /** Stores the bounds of the playable area as given. */
    method SetWorldBounds(bounds: Box)
      modifies this`worldBounds
      ensures worldBounds == bounds
    {
      worldBounds := bounds;
    }

    /** Map position of a world location; the origin when there is no canvas.
        It reads the widget and changes nothing. */
    function WorldToMapPosition(loc: Vec3): (p: Vec2)
      reads this, markerCanvas
      requires markerCanvas != null ==> Spans(worldBounds)
      ensures markerCanvas == null ==> p == Vec2(0.0, 0.0)
      ensures markerCanvas != null ==> p == MapPosition(worldBounds, markerCanvas.localSize, loc)
    {
      if markerCanvas == null then Vec2(0.0, 0.0)
      else MapPosition(worldBounds, markerCanvas.localSize, loc)
    }

    /** Records a marker for a widget and, when the map has a canvas, shows
        the widget on it unless it is already shown. A null widget is
        ignored. A widget already listed is listed again. */
    method AddMarkerPersistent(w: UserWidget?, loc: Vec3)
      requires Valid()
      modifies this`persistentMarkers, markerCanvas
      ensures Valid()
      ensures w == null ==> persistentMarkers == old(persistentMarkers)
      ensures w != null ==> persistentMarkers == old(persistentMarkers) + [WorldMapMarker(w, loc)]
      ensures markerCanvas != null ==>
        markerCanvas.localSize == old(markerCanvas.localSize) &&
        if w != null && w !in old(markerCanvas.children) then
          markerCanvas.children == old(markerCanvas.children) + [w] &&
          markerCanvas.slots == old(markerCanvas.slots)[w := DefaultSlot]
        else
          markerCanvas.children == old(markerCanvas.children) && markerCanvas.slots == old(markerCanvas.slots)
    {
      if w == null {
        return;
      }
      persistentMarkers := persistentMarkers + [WorldMapMarker(w, loc)];
      if markerCanvas != null && !markerCanvas.HasChild(w) {
        markerCanvas.AddChild(w);
      }
    }

    /** Forgets a widget: takes it off the canvas and drops every marker
        that uses it. A null widget is ignored. */
    method RemoveMarker(w: UserWidget?)
      requires Valid()
      modifies this`persistentMarkers, markerCanvas
      ensures Valid()
      ensures w == null ==> persistentMarkers == old(persistentMarkers)
      ensures w != null ==> persistentMarkers == RemoveAllFor(old(persistentMarkers), w)
      ensures markerCanvas != null ==> markerCanvas.localSize == old(markerCanvas.localSize)
      ensures markerCanvas != null && w == null ==>
        markerCanvas.children == old(markerCanvas.children) && markerCanvas.slots == old(markerCanvas.slots)
      ensures markerCanvas != null && w != null ==>
        markerCanvas.children == Without<UserWidget>(old(markerCanvas.children), w) &&
        markerCanvas.slots == old(markerCanvas.slots) - {w}
    {
      if w == null {
        return;
      }
      if markerCanvas != null && markerCanvas.HasChild(w) {
        markerCanvas.RemoveChild(w);
      } else if markerCanvas != null {
        assert w !in markerCanvas.slots;
        assert markerCanvas.slots - {w} == markerCanvas.slots;
      }
      persistentMarkers := RemoveAllFor(persistentMarkers, w);
    }

    /** Stores the requested zoom clamped to [0.5, 4]. */
    method SetZoom(z: real)
      modifies this`zoomLevel
      ensures zoomLevel == ClampZoom(z)
    {
      zoomLevel := Clamp(z, 0.5, 4.0);
    }

    /** The open-map loop: shows every listed marker's widget on the canvas,
        in list order, skipping null widgets and widgets already shown. The
        canvas is assumed bound: the loop dereferences it unchecked. */
    method NativeConstruct()
      requires Valid() && markerCanvas != null
      modifies markerCanvas
      ensures Valid()
      ensures markerCanvas.children == Attach(old(markerCanvas.children), persistentMarkers)
      ensures forall m :: m in persistentMarkers && m.widget != null ==> markerCanvas.HasChild(m.widget)
      ensures forall w :: w in old(markerCanvas.slots) ==> w in markerCanvas.slots && markerCanvas.slots[w] == old(markerCanvas.slots[w])
      ensures forall w :: w in markerCanvas.slots && w !in old(markerCanvas.slots) ==> markerCanvas.slots[w] == DefaultSlot
      ensures markerCanvas.localSize == old(markerCanvas.localSize)
    {
      var i := 0;
      while i < |persistentMarkers|
        invariant 0 <= i <= |persistentMarkers|
        invariant markerCanvas.Valid()
        invariant Attach(markerCanvas.children, persistentMarkers[i..]) == Attach(old(markerCanvas.children), persistentMarkers)
        invariant forall w :: w in old(markerCanvas.slots) ==> w in markerCanvas.slots && markerCanvas.slots[w] == old(markerCanvas.slots[w])
        invariant forall w :: w in markerCanvas.slots && w !in old(markerCanvas.slots) ==> markerCanvas.slots[w] == DefaultSlot
        invariant markerCanvas.localSize == old(markerCanvas.localSize)
      {
        var m := persistentMarkers[i];
        assert persistentMarkers[i..][1..] == persistentMarkers[i + 1..];
        if m.widget != null && !markerCanvas.HasChild(m.widget) {
          markerCanvas.AddChild(m.widget);
        }
        i := i + 1;
      }
      assert persistentMarkers[i..] == [];
      AttachProperties(old(markerCanvas.children), persistentMarkers);
    }

    /** The per-frame position update: every marker whose widget sits in a
        slot of the canvas is placed, centred and 32 by 32, at the map
        position of its location. Without a canvas nothing happens. */
    method UpdateMarkerPositions()
      requires Valid() && (markerCanvas != null ==> Spans(worldBounds))
      modifies markerCanvas
      ensures Valid()
      ensures markerCanvas != null ==>
        markerCanvas.children == old(markerCanvas.children) &&
        markerCanvas.localSize == old(markerCanvas.localSize) &&
        markerCanvas.slots == Place(old(markerCanvas.slots), worldBounds, markerCanvas.localSize, persistentMarkers)
    {
      if markerCanvas == null {
        return;
      }
      var i := 0;
      while i < |persistentMarkers|
        invariant 0 <= i <= |persistentMarkers|
        invariant markerCanvas.Valid()
        invariant markerCanvas.children == old(markerCanvas.children)
        invariant markerCanvas.localSize == old(markerCanvas.localSize)
        invariant Place(markerCanvas.slots, worldBounds, markerCanvas.localSize, persistentMarkers[i..]) ==
          Place(old(markerCanvas.slots), worldBounds, markerCanvas.localSize, persistentMarkers)
      {
        var m := persistentMarkers[i];
        assert persistentMarkers[i..][1..] == persistentMarkers[i + 1..];
        if m.widget != null && markerCanvas != null {
          var p := WorldToMapPosition(m.worldLocation);
          if m.widget in markerCanvas.slots {
            markerCanvas.slots := markerCanvas.slots[m.widget := MarkerLayout(p)];
          }
        }
        i := i + 1;
      }
      assert persistentMarkers[i..] == [];
    }
  }

  /** The zoom actually stored for a requested zoom. */
  function ClampZoom(z: real): (r: real)
    ensures 0.5 <= r <= 4.0
    ensures 0.5 <= z <= 4.0 ==> r == z
    ensures z < 0.5 ==> r == 0.5
    ensures z > 4.0 ==> r == 4.0
  {
    Clamp(z, 0.5, 4.0)
  }

  /** Setting a zoom twice stores the same level as setting it once. */
  lemma ClampZoomIdempotent(z: real)
    ensures ClampZoom(ClampZoom(z)) == ClampZoom(z)
  {
    ClampIdempotent(z, 0.5, 4.0);
  }

  /** The marker list without the markers of one widget, order kept. */
  function RemoveAllFor(ms: seq<WorldMapMarker>, w: UserWidget): (r: seq<WorldMapMarker>)
    ensures forall i :: 0 <= i < |r| ==> r[i] in ms && r[i].widget != w
    ensures |r| <= |ms|
    decreases |ms|
  {
    if |ms| == 0 then []
    else
      var rest := RemoveAllFor(ms[1..], w);
      if ms[0].widget == w then rest else [ms[0]] + rest
  }

  /** After removal, a marker is listed exactly when it was listed before
      and belongs to another widget, and as often as before. */
  lemma RemoveAllForMembers(ms: seq<WorldMapMarker>, w: UserWidget)
    ensures forall m :: m in RemoveAllFor(ms, w) <==> m in ms && m.widget != w
    ensures forall i :: 0 <= i < |ms| && ms[i].widget != w ==>
      multiset(RemoveAllFor(ms, w))[ms[i]] == multiset(ms)[ms[i]]
  {
    forall m
      ensures m in RemoveAllFor(ms, w) <==> m in ms && m.widget != w
    {
      RemoveAllForCount(ms, w, m);
    }
    forall i | 0 <= i < |ms| && ms[i].widget != w
      ensures multiset(RemoveAllFor(ms, w))[ms[i]] == multiset(ms)[ms[i]]
    {
      RemoveAllForCount(ms, w, ms[i]);
    }
  }

  /** How often a marker is listed after removal: never when it uses the
      widget, as often as before otherwise. */
  lemma {:induction false} RemoveAllForCount(ms: seq<WorldMapMarker>, w: UserWidget, m: WorldMapMarker)
    ensures multiset(RemoveAllFor(ms, w))[m] == if m.widget == w then 0 else multiset(ms)[m]
    decreases |ms|
  {
    if |ms| > 0 {
      RemoveAllForCount(ms[1..], w, m);
      RemoveAllForHead(ms, w);
      assert ms == [ms[0]] + ms[1..];
    }
  }

  /** Removal keeps the order of what stays: it works piecewise over a
      concatenation, dropping a single marker exactly when it belongs to the
      widget and keeping it otherwise. */
  lemma {:induction false} RemoveAllForKeepsOrder(a: seq<WorldMapMarker>, b: seq<WorldMapMarker>, w: UserWidget)
    ensures RemoveAllFor(a + b, w) == RemoveAllFor(a, w) + RemoveAllFor(b, w)
    ensures |a| == 1 ==> RemoveAllFor(a, w) == if a[0].widget == w then [] else a
    decreases |a|
  {
    if |a| == 0 {
      assert a + b == b;
    } else {
      var ab := a + b;
      var h := if a[0].widget == w then [] else [a[0]];
      var ra, rb := RemoveAllFor(a[1..], w), RemoveAllFor(b, w);
      assert RemoveAllFor(ab, w) == h + (ra + rb) by {
        assert ab[0] == a[0];
        assert ab[1..] == a[1..] + b;
        RemoveAllForHead(ab, w);
        RemoveAllForKeepsOrder(a[1..], b, w);
      }
      assert RemoveAllFor(a, w) == h + ra by {
        RemoveAllForHead(a, w);
      }
      assert h + (ra + rb) == (h + ra) + rb;
      if |a| == 1 {
        assert ra == [] by {
          assert a[1..] == [];
        }
      }
    }
  }

  /** Removal from a non-empty list looks at the head and goes on with the tail. */
  lemma RemoveAllForHead(ms: seq<WorldMapMarker>, w: UserWidget)
    requires |ms| > 0
    ensures RemoveAllFor(ms, w) == (if ms[0].widget == w then [] else [ms[0]]) + RemoveAllFor(ms[1..], w)
  {
  }

  /** For every other widget, the last marker listed for it is the same
      after removal, so the position-update loop places its slot as
      before. */
  lemma {:induction false} RemoveAllForLastLocation(ms: seq<WorldMapMarker>, w: UserWidget, v: UserWidget)
    requires v != w
    ensures LastLocation(RemoveAllFor(ms, w), v) == LastLocation(ms, v)
    decreases |ms|
  {
    if |ms| > 0 {
      RemoveAllForLastLocation(ms[1..], w, v);
      var rest := RemoveAllFor(ms[1..], w);
      if ms[0].widget != w {
        assert ([ms[0]] + rest)[1..] == rest;
      }
    }
  }
}
