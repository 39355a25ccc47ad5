/**
 * js/main.js: the application state (`appState`), the mode switch, the status line, the
 * layer-order repair, the redraw and recolour passes and the pointer handlers, over the
 * canvas of js/canvas.js and the placement module of js/building.js.
 */
module App {
  import opened Common
  import opened Config
  import opened Grid
  import opened Scene
  import opened Layering
  import opened Building
  import opened CanvasLayer

  // ---------------------------------------------------------------- setMode

  /**
   * The objects whose `selectable` flag `setMode` leaves alone: excluded from export, the
   * object `window.backgroundImage` refers to, tagged `isBackground` or `isGrid`, or the
   * drawing frame.
   */
  predicate KeepsSelectability(o: SceneObj, bg: Option<nat>) {
    o.excludeFromExport || (bg.Some? && o.uid == bg.value) || o.isBackground || o.isGrid || IsDrawingFrame(o)
  }

  /** One iteration of the `forEach` in `setMode`. */
  function WithMode(o: SceneObj, bg: Option<nat>, m: Mode): SceneObj {
    if KeepsSelectability(o, bg) then o else o.(selectable := m == Select)
  }

  /**
   * The object list after `setMode(m)`: only `selectable` changes; objects that are not
   * excluded become selectable exactly in select mode, the excluded keep their flag.
   */
  function Reselected(s: seq<SceneObj>, bg: Option<nat>, m: Mode): (r: seq<SceneObj>)
    ensures |r| == |s|
    ensures forall i :: 0 <= i < |s| ==> r[i].(selectable := s[i].selectable) == s[i]
    ensures forall i :: 0 <= i < |s| && KeepsSelectability(s[i], bg) ==> r[i].selectable == s[i].selectable
    ensures forall i :: 0 <= i < |s| && !KeepsSelectability(s[i], bg) ==> r[i].selectable == (m == Select)
  {
    seq(|s|, i requires 0 <= i < |s| => WithMode(s[i], bg, m))
  }

  /** Switching modes twice is the same as switching to the last mode directly. */
  lemma ReselectLastWins(s: seq<SceneObj>, bg: Option<nat>, m1: Mode, m2: Mode)
    ensures Reselected(Reselected(s, bg, m1), bg, m2) == Reselected(s, bg, m2)
  {
    var r1 := Reselected(s, bg, m1);
    forall i | 0 <= i < |s|
      ensures Reselected(r1, bg, m2)[i] == Reselected(s, bg, m2)[i]
    {
      assert KeepsSelectability(r1[i], bg) == KeepsSelectability(s[i], bg);
    }
  }

  // ---------------------------------------------------------------- getStatusMessage

  /** The status line `getStatusMessage` composes, without its Japanese wording. */
  datatype StatusMessage =
    | TextModeHint
    | DrawModeHint
    | ChooseTypeHint
    | SelectModeHint
    | PlaceModeHint(typeId: string)
    | AreaModeHint(typeId: string)

  /**
   * `getStatusMessage`: text and draw mode announce themselves whatever is selected; in the
   * other modes a missing type comes first, then the mode with the chosen type.
   */
  function StatusFor(mode: Mode, selected: Option<SelectedType>): (r: StatusMessage)
    ensures r == TextModeHint <==> mode == Text
    ensures r == DrawModeHint <==> mode == Draw
    ensures r == ChooseTypeHint <==> mode != Text && mode != Draw && selected.None?
    ensures r == SelectModeHint <==> mode == Select && selected.Some?
    ensures r.PlaceModeHint? <==> mode == Place && selected.Some?
    ensures r.AreaModeHint? <==> mode.Area? && selected.Some?
    ensures (r.PlaceModeHint? || r.AreaModeHint?) ==> r.typeId == selected.value.typeId
  {
    if mode == Text then TextModeHint
    else if mode == Draw then DrawModeHint
    else if selected.None? then ChooseTypeHint
    else if mode == Select then SelectModeHint
    else if mode == Place then PlaceModeHint(selected.value.typeId)
    else AreaModeHint(selected.value.typeId)
  }

  // ---------------------------------------------------------------- updateExistingBuildings

  /** The buildings `updateExistingBuildings` rebuilds: types A and B. */
  predicate Redrawn(o: SceneObj) {
    o.buildingType == "A" || o.buildingType == "B"
  }

  predicate NotRedrawn(o: SceneObj) {
    !Redrawn(o)
  }

  /**
   * The position of the first type-A/B object flagged `isPair`, or |s|: rebuilding it calls
   * `createPairBuilding`, which js/building.js does not define, so the pass stops there with
   * a TypeError, the object already removed.
   */
  function FirstPair(s: seq<SceneObj>): (n: nat)
    ensures n <= |s|
    ensures n < |s| ==> Redrawn(s[n]) && s[n].isPair
    ensures forall i :: 0 <= i < n ==> !(Redrawn(s[i]) && s[i].isPair)
  {
    if s == [] then 0
    else if Redrawn(s[0]) && s[0].isPair then 0
    else 1 + FirstPair(s[1..])
  }

  /** The catalogue entry of a type-A/B object. */
  function RedrawnType(o: SceneObj): BuildingTypeDef {
    if o.buildingType == "A" then TYPE_A else TYPE_B
  }

  /** The new group `createBuilding(left, top, buildingType, angle)` makes for `o`. */
  function Rebuilt(o: SceneObj, uid: nat, id: int, selectable: bool): SceneObj {
    Footprint(RedrawnType(o), o.left, o.top, o.angle, uid, id, selectable)
  }

  /** The replacements for `done`, in order, the k-th with identity u0 + k and `buildingId` id0 + k + 1. */
  function Rebuilds(done: seq<SceneObj>, u0: nat, id0: int, selectable: bool): (r: seq<SceneObj>)
    ensures |r| == |done|
  {
    seq(|done|, k requires 0 <= k < |done| => Rebuilt(done[k], u0 + k, id0 + k + 1, selectable))
  }

  lemma RebuildsSnoc(done: seq<SceneObj>, o: SceneObj, u0: nat, id0: int, selectable: bool)
    ensures Rebuilds(done + [o], u0, id0, selectable)
         == Rebuilds(done, u0, id0, selectable) + [Rebuilt(o, u0 + |done|, id0 + |done| + 1, selectable)]
  {
  }

  /** The object list after `updateExistingBuildings` on `s`, as js/main.js:136-173 runs it. */
  function AfterRedraw(s: seq<SceneObj>, u0: nat, id0: int, selectable: bool): seq<SceneObj> {
    StoppedAt(s, FirstPair(s), u0, id0, selectable)
  }

  /**
   * The object list once the pass has handled s[..n] and, when n < |s|, removed s[n]: the
   * objects it skipped, the ones it has not reached, then the rebuilt buildings.
   */
  function StoppedAt(s: seq<SceneObj>, n: nat, u0: nat, id0: int, selectable: bool): seq<SceneObj>
    requires n <= |s|
  {
    Filter(s[..n], NotRedrawn) + (if n < |s| then s[n + 1..] else [])
    + Rebuilds(Filter(s[..n], Redrawn), u0, id0, selectable)
  }

  /** Rebuilt buildings keep type, place and angle, are unpaired and take consecutive ids. */
  lemma RebuildsFacts(done: seq<SceneObj>, u0: nat, id0: int, selectable: bool)
    requires forall k :: 0 <= k < |done| ==> Redrawn(done[k])
    ensures var r := Rebuilds(done, u0, id0, selectable);
            forall k :: 0 <= k < |done| ==>
              Redrawn(r[k]) && r[k].buildingType == done[k].buildingType && !r[k].isPair
              && r[k].left == done[k].left && r[k].top == done[k].top && r[k].angle == done[k].angle
              && r[k].uid == u0 + k && r[k].buildingId == id0 + k + 1
  {
  }

  /** Filtering a list made of non-redrawn objects followed by redrawn ones splits it back. */
  lemma SplitFilters(a: seq<SceneObj>, b: seq<SceneObj>)
    requires forall k :: 0 <= k < |a| ==> NotRedrawn(a[k])
    requires forall k :: 0 <= k < |b| ==> Redrawn(b[k])
    ensures Filter(a + b, Redrawn) == b && Filter(a + b, NotRedrawn) == a
  {
    FilterAppend(a, b, Redrawn);
    FilterAppend(a, b, NotRedrawn);
    FilterDropsAll(a, Redrawn);
    FilterKeepsAll(a, NotRedrawn);
    FilterKeepsAll(b, Redrawn);
    FilterDropsAll(b, NotRedrawn);
  }

  /**
   * Without paired buildings, the redraw leaves every other object where it was relative to
   * the others, and replaces the type-A/B buildings, in order, by new ones on top with the same
   * position, angle and type, still unpaired, with fresh identities and consecutive ids.
   */
  lemma RedrawPreserves(s: seq<SceneObj>, u0: nat, id0: int, selectable: bool)
    requires FirstPair(s) == |s|
    ensures var r := AfterRedraw(s, u0, id0, selectable);
            var old_ := Filter(s, Redrawn);
            var new_ := Filter(r, Redrawn);
            Filter(r, NotRedrawn) == Filter(s, NotRedrawn)
            && |new_| == |old_|
            && forall k :: 0 <= k < |old_| ==>
                 new_[k].left == old_[k].left && new_[k].top == old_[k].top && new_[k].angle == old_[k].angle
                 && new_[k].buildingType == old_[k].buildingType && new_[k].isPair == old_[k].isPair
                 && new_[k].uid == u0 + k && new_[k].buildingId == id0 + k + 1
  {
    assert s[..|s|] == s;
    var old_ := Filter(s, Redrawn);
    var kept := Filter(s, NotRedrawn);
    var rb := Rebuilds(old_, u0, id0, selectable);
    assert AfterRedraw(s, u0, id0, selectable) == kept + rb;
    FilterMembers(s, Redrawn);
    FilterMembers(s, NotRedrawn);
    forall k | 0 <= k < |old_| ensures Redrawn(old_[k]) && !old_[k].isPair {
      assert old_[k] in old_;
      var j :| 0 <= j < |s| && s[j] == old_[k];
    }
    forall k | 0 <= k < |kept| ensures NotRedrawn(kept[k]) {
      assert kept[k] in kept;
    }
    RebuildsFacts(old_, u0, id0, selectable);
    SplitFilters(kept, rb);
  }

  // ---------------------------------------------------------------- updateBuildingColors

  /** The colour `updateBuildingColors(type)` paints: the catalogue colour, or grey when unticked. */
  function ColorFor(typeId: string, useColor: bool): string
    requires IsTypeKey(typeId)
  {
    if useColor then LookupType(typeId).value.color else "#cccccc"
  }

  /** One shape of a group: every rectangle except one in the entrance-marker colour is repainted. */
  function RecoloredPart(p: Rect, newColor: string): Rect {
    if p.fill != MARKER_COLOR then p.(fill := newColor) else p
  }

  /** A building group of type `typeId` with its shapes repainted; every other object unchanged. */
  function Recolored(o: SceneObj, typeId: string, newColor: string): SceneObj {
    if o.buildingType == typeId && o.body.Group? then
      o.(body := Group(seq(|o.body.parts|, k requires 0 <= k < |o.body.parts| =>
                                           RecoloredPart(o.body.parts[k], newColor))))
    else o
  }

  /** The object list after `updateBuildingColors`. */
  function RecoloredAll(s: seq<SceneObj>, typeId: string, newColor: string): (r: seq<SceneObj>)
    ensures |r| == |s|
  {
    seq(|s|, i requires 0 <= i < |s| => Recolored(s[i], typeId, newColor))
  }

  /**
   * A building of type C is never recoloured: its body is filled with the colour by which the
   * pass recognises entrance markers, so the pass skips it whichever colour is asked for.
   */
  lemma TypeCNeverRecolored(x: real, y: real, rotation: real, uid: nat, id: int, selectable: bool,
                            useColor: bool)
    ensures var o := Footprint(TYPE_C, x, y, rotation, uid, id, selectable);
            Recolored(o, "C", ColorFor("C", useColor)) == o
  {
    TypeCColorIsMarkerColor();
    var o := Footprint(TYPE_C, x, y, rotation, uid, id, selectable);
    assert o.body.parts == [Rect(0.0, 0.0, TYPE_C.width * SCALE, TYPE_C.height * SCALE, MARKER_COLOR)];
    assert Recolored(o, "C", ColorFor("C", useColor)).body.parts == o.body.parts;
  }

  /**
   * For a type with a different colour, the body takes the new colour and the entrance marker
   * keeps its own; painting grey and then the catalogue colour again gives the original group.
   */
  lemma RecolorRoundTrip(key: string, x: real, y: real, rotation: real, uid: nat, id: int,
                         selectable: bool)
    requires IsTypeKey(key) && key != "C"
    ensures var def := LookupType(key).value;
            var o := Footprint(def, x, y, rotation, uid, id, selectable);
            var grey := Recolored(o, key, ColorFor(key, false));
            grey.body.parts[0].fill == "#cccccc"
            && (def.hasEntrance ==> grey.body.parts[1].fill == MARKER_COLOR)
            && Recolored(grey, key, ColorFor(key, true)) == o
  {
    TypeCColorIsMarkerColor();
    var def := LookupType(key).value;
    var o := Footprint(def, x, y, rotation, uid, id, selectable);
    var grey := Recolored(o, key, ColorFor(key, false));
    var back := Recolored(grey, key, ColorFor(key, true));
    assert |back.body.parts| == |o.body.parts|;
    forall k | 0 <= k < |o.body.parts| ensures back.body.parts[k] == o.body.parts[k] {
    }
  }

  /** The shapes of one group repainted one by one, as the inner `forEach` does. */
  method RecolorParts(parts: seq<Rect>, newColor: string) returns (r: seq<Rect>)
    ensures |r| == |parts|
    ensures forall k :: 0 <= k < |parts| && parts[k].fill == MARKER_COLOR ==> r[k] == parts[k]
    ensures forall k :: 0 <= k < |parts| && parts[k].fill != MARKER_COLOR ==>
              r[k] == parts[k].(fill := newColor)
  {
    r := parts;
    var k := 0;
    while k < |r|
      invariant 0 <= k <= |r| == |parts|
      invariant forall j :: 0 <= j < k ==> r[j] == RecoloredPart(parts[j], newColor)
      invariant forall j :: k <= j < |r| ==> r[j] == parts[j]
    {
      if r[k].fill != MARKER_COLOR {
        r := r[k := r[k].(fill := newColor)];
      }
      k := k + 1;
    }
  }

  // ---------------------------------------------------------------- pointer gestures

  /** What `mouse:down` does, by mode, selection and whether an object was hit. */
  datatype Gesture = AddText | PlaceOne | StartBand | Ignore

  function DownGesture(mode: Mode, typeSelected: bool, hasTarget: bool): (g: Gesture)
    ensures g == AddText <==> mode == Text && !hasTarget
    ensures g == PlaceOne <==> mode == Place && typeSelected && !hasTarget
    ensures g == StartBand <==> mode.Area? && typeSelected && !hasTarget
    ensures mode == Select || mode == Draw ==> g == Ignore
  {
    if mode == Text && !hasTarget then AddText
    else if mode == Place && typeSelected && !hasTarget then PlaceOne
    else if mode.Area? && typeSelected && !hasTarget then StartBand
    else Ignore
  }

  /** The rubber band `mouse:down` adds: a zero-size rectangle at the start point, not selectable. */
  function BandRect(uid: nat, p: Point): (o: SceneObj)
    ensures o.uid == uid && o.left == p.x && o.top == p.y && o.width == 0.0 && o.height == 0.0
    ensures !o.selectable && !o.evented && !HasBuildingType(o)
  {
    NewObject(uid, Plain).(left := p.x, top := p.y, width := 0.0, height := 0.0,
                           selectable := false, evented := false)
  }

  function Min(a: real, b: real): real {
    if a <= b then a else b
  }

  function Abs(a: real): real {
    if a < 0.0 then -a else a
  }

  /** The rectangle `mouse:move` gives the rubber band, spanned by the start point and the pointer. */
  function RubberBand(start: Point, p: Point): Area {
    Area.Area(Min(p.x, start.x), Min(p.y, start.y), Abs(p.x - start.x), Abs(p.y - start.y))
  }

  /**
   * The rubber band has a non-negative size, covers the start point and the pointer, and is the
   * smallest such rectangle: each of its edges passes through one of the two points.
   */
  lemma RubberBandCovers(start: Point, p: Point)
    ensures var r := RubberBand(start, p);
            r.width >= 0.0 && r.height >= 0.0
            && r.left <= start.x <= r.left + r.width && r.left <= p.x <= r.left + r.width
            && r.top <= start.y <= r.top + r.height && r.top <= p.y <= r.top + r.height
            && (r.left == start.x || r.left == p.x) && (r.left + r.width == start.x || r.left + r.width == p.x)
            && (r.top == start.y || r.top == p.y) && (r.top + r.height == start.y || r.top + r.height == p.y)
  {
  }

  /** `mouse:up` places buildings only for a band strictly larger than the minimum on both axes. */
  predicate LargeEnough(r: SceneObj) {
    r.width > MIN_WIDTH && r.height > MIN_HEIGHT
  }

  /** `object:moving`: a building dragged in select mode lands on the nearest grid point. */
  function Dragged(o: SceneObj, mode: Mode): (r: SceneObj)
    ensures mode == Select && HasBuildingType(o) ==>
              r == o.(left := r.left, top := r.top)
              && Round(r.left / GridSize()) as real * GridSize() == r.left
              && Round(r.top / GridSize()) as real * GridSize() == r.top
              && Abs(r.left - o.left) <= GridSize() / 2.0 && Abs(r.top - o.top) <= GridSize() / 2.0
              && r.left == SnapToGrid(o.left) && r.top == SnapToGrid(o.top)
    ensures !(mode == Select && HasBuildingType(o)) ==> r == o
  {
    if mode == Select && HasBuildingType(o) then
      var p := SnapCoordinatesToGrid(o.left, o.top);
      GridIndexOfSnapped(o.left);
      GridIndexOfSnapped(o.top);
      o.(left := p.x, top := p.y)
    else o
  }


  /** The `forEach` of `setMode` over the canvas objects. */
  method ApplyMode(c: Canvas, bg: Option<nat>, m: Mode)
    requires c.Valid()
    modifies c`objects
    ensures c.Valid() && c.objects == Reselected(old(c.objects), bg, m)
  {
    ghost var s := c.objects;
    var i := 0;
    assert s[..0] == [] && s[0..] == s;
    while i < |c.objects|
      invariant 0 <= i <= |s| == |c.objects|
      invariant c.Valid() && c.objects == Reselected(s[..i], bg, m) + s[i..]
    {
      ModeOne(c, bg, m, i, s);
      i := i + 1;
    }
    assert s[..i] == s && s[i..] == [];
  }

  /** One iteration of the `setMode` loop, at position i. */
  method ModeOne(c: Canvas, bg: Option<nat>, m: Mode, i: nat, ghost s: seq<SceneObj>)
    requires i < |s| && c.Valid() && c.objects == Reselected(s[..i], bg, m) + s[i..]
    modifies c`objects
    ensures c.Valid() && c.objects == Reselected(s[..i + 1], bg, m) + s[i + 1..]
  {
    ReselectedExtend(s, i, bg, m);
    var obj := c.objects[i];
    assert obj == s[i];
    if !KeepsSelectability(obj, bg) {
      assert obj in c.objects;
      UpdatedAt(c.objects, i, obj.(selectable := m == Select));
      c.SetObject(obj.(selectable := m == Select));
    } else {
      assert c.objects[i := WithMode(s[i], bg, m)] == c.objects;
    }
  }

  /** Settling position i extends the settled prefix by one. */
  lemma ReselectedExtend(s: seq<SceneObj>, i: nat, bg: Option<nat>, m: Mode)
    requires i < |s|
    ensures |Reselected(s[..i], bg, m) + s[i..]| == |s|
    ensures (Reselected(s[..i], bg, m) + s[i..])[i] == s[i]
    ensures (Reselected(s[..i], bg, m) + s[i..])[i := WithMode(s[i], bg, m)]
            == Reselected(s[..i + 1], bg, m) + s[i + 1..]
  {
    var a := Reselected(s[..i], bg, m) + s[i..];
    var b := Reselected(s[..i + 1], bg, m) + s[i + 1..];
    assert |a[i := WithMode(s[i], bg, m)]| == |b|;
    forall k | 0 <= k < |b| ensures a[i := WithMode(s[i], bg, m)][k] == b[k] {
      if k < i {
        assert a[k] == WithMode(s[k], bg, m) == b[k];
      } else if k > i {
        assert a[k] == s[k] == b[k];
      }
    }
  }

  /** The three steps of `maintainLayerOrder` on the canvas, `bg` being `window.backgroundImage`. */
  method ReorderLayers(c: Canvas, bg: Option<nat>)
    requires c.Valid()
    modifies c`objects
    ensures c.Valid() && c.objects == LayerOrder(old(c.objects), bg)
  {
    ghost var s0 := c.objects;
    if bg.Some? {
      c.SendToBack(bg.value);
    }
    ghost var s1 := c.objects;
    var drawingFrame := FindFrame(c.objects);
    if drawingFrame.Some? {
      c.SendToBack(drawingFrame.value.uid);
      if bg.Some? {
        c.BringForward(drawingFrame.value.uid);
      }
    }
    var gridLines := Uids(Filter(c.objects, GridFlag));
    ghost var forward := drawingFrame.Some? || bg.Some?;
    LayerOrderSteps(s0, bg, s1, c.objects, forward);
    GridLoop(c, gridLines, drawingFrame.Some?, bg.Some?);
  }

  /** `maintainLayerOrder` is its steps 1 and 2 followed by the grid loop. */
  lemma LayerOrderSteps(s0: seq<SceneObj>, bg: Option<nat>, s1: seq<SceneObj>, s2: seq<SceneObj>, forward: bool)
    requires s1 == if bg.Some? then ToBack(s0, bg.value) else s0
    requires s2 == FirstTwo(s0, bg)
    requires forward == (FindFrame(s1).Some? || bg.Some?)
    ensures LayerOrder(s0, bg) == GridSteps(s2, Uids(Filter(s2, GridFlag)), forward)
  {
  }

  /**
   * After `loadPDF` the grid lines of js/canvas.js lie behind the new background. They carry
   * no `isGrid` tag, so the next `maintainLayerOrder` (run on every selection or modification
   * event) sends the background to the very back and leaves the lines in front of it.
   */
  lemma ReorderAfterLoad(img: SceneObj, rest: seq<SceneObj>, lines: seq<nat>)
    requires UniqueUids([img] + rest) && Distinct(lines) && img.uid !in lines
    requires !img.isGrid && !IsDrawingFrame(img)
    requires forall k :: 0 <= k < |rest| ==> !rest[k].isGrid && !IsDrawingFrame(rest[k])
    ensures var loaded := ToBackAll([img] + rest, lines);
            loaded == Reverse(Pick(rest, lines)) + [img] + WithoutAll(rest, lines)
            && LayerOrder(loaded, Some(img.uid)) == [img] + Reverse(Pick(rest, lines)) + WithoutAll(rest, lines)
  {
    var l := Reverse(Pick(rest, lines));
    var w := WithoutAll(rest, lines);
    LoadedOrder(img, rest, lines);
    ToBackAllPermutes([img] + rest, lines);
    BackgroundUp(l, img, w);
    UntaggedAfterLoad(img, rest, l, w);
    LayerOrderUntagged(l + [img] + w, img.uid, [img] + l + w);
  }

  /** Sending the object between `l` and `w` to the back. */
  lemma BackgroundUp(l: seq<SceneObj>, img: SceneObj, w: seq<SceneObj>)
    requires UniqueUids(l + [img] + w)
    ensures ToBack(l + [img] + w, img.uid) == [img] + l + w
  {
    assert l + [img] + w == l + ([img] + w);
    ToBackInside(l, [img] + w, 0);
    assert ([img] + w)[..0] + ([img] + w)[1..] == w;
  }

  /** The reordered load holds the same objects, none of them tagged. */
  lemma UntaggedAfterLoad(img: SceneObj, rest: seq<SceneObj>, l: seq<SceneObj>, w: seq<SceneObj>)
    requires multiset(l + [img] + w) == multiset([img] + rest)
    requires !img.isGrid && !IsDrawingFrame(img)
    requires forall k :: 0 <= k < |rest| ==> !rest[k].isGrid && !IsDrawingFrame(rest[k])
    ensures forall k :: 0 <= k < |[img] + l + w| ==> !([img] + l + w)[k].isGrid && !IsDrawingFrame(([img] + l + w)[k])
  {
    assert multiset([img] + l + w) == multiset(l + [img] + w);
    forall k | 0 <= k < |[img] + l + w|
      ensures !([img] + l + w)[k].isGrid && !IsDrawingFrame(([img] + l + w)[k])
    {
      var x := ([img] + l + w)[k];
      assert x in multiset([img] + rest);
      if x != img {
        assert x in rest;
      }
    }
  }

  /** Without frames or isGrid objects, `maintainLayerOrder` only sends the background to the back. */
  lemma LayerOrderUntagged(s: seq<SceneObj>, b: nat, s1: seq<SceneObj>)
    requires s1 == ToBack(s, b)
    requires forall k :: 0 <= k < |s1| ==> !s1[k].isGrid && !IsDrawingFrame(s1[k])
    ensures LayerOrder(s, Some(b)) == s1
  {
    assert FindFrame(s1).None?;
    FilterDropsAll(s1, GridFlag);
    assert Uids([]) == [];
  }

  /** Step 3 of `maintainLayerOrder`: each grid object to the back, then one step forward if asked. */
  method GridLoop(c: Canvas, gridLines: seq<nat>, hasFrame: bool, hasBackground: bool)
    requires c.Valid()
    modifies c`objects
    ensures c.Valid() && c.objects == GridSteps(old(c.objects), gridLines, hasFrame || hasBackground)
  {
    ghost var s2 := c.objects;
    ghost var forward := hasFrame || hasBackground;
    var i := 0;
    while i < |gridLines|
      invariant 0 <= i <= |gridLines|
      invariant c.Valid() && c.objects == GridSteps(s2, gridLines[..i], forward)
    {
      GridStepsSnoc(s2, gridLines[..i], gridLines[i], forward);
      assert gridLines[..i + 1] == gridLines[..i] + [gridLines[i]];
      c.SendToBack(gridLines[i]);
      if hasFrame {
        c.BringForward(gridLines[i]);
      } else if hasBackground {
        c.BringForward(gridLines[i]);
      }
      i := i + 1;
    }
    assert gridLines[..i] == gridLines;
  }

  /** The outer `forEach` of `updateBuildingColors` over the canvas objects. */
  method RecolorAll(c: Canvas, typeId: string, newColor: string)
    requires c.Valid()
    modifies c`objects
    ensures c.Valid() && c.objects == RecoloredAll(old(c.objects), typeId, newColor)
  {
    ghost var s := c.objects;
    var i := 0;
    assert s[..0] == [] && s[0..] == s;
    while i < |c.objects|
      invariant 0 <= i <= |s| == |c.objects|
      invariant c.Valid() && c.objects == RecoloredAll(s[..i], typeId, newColor) + s[i..]
    {
      RecolorOne(c, typeId, newColor, i, s);
      i := i + 1;
    }
    assert s[..i] == s && s[i..] == [];
  }

  /** One iteration of the `updateBuildingColors` loop, at position i. */
  method RecolorOne(c: Canvas, typeId: string, newColor: string, i: nat, ghost s: seq<SceneObj>)
    requires i < |s| && c.Valid() && c.objects == RecoloredAll(s[..i], typeId, newColor) + s[i..]
    modifies c`objects
    ensures c.Valid() && c.objects == RecoloredAll(s[..i + 1], typeId, newColor) + s[i + 1..]
  {
    RecoloredExtend(s, i, typeId, newColor);
    var obj := c.objects[i];
    assert obj == s[i];
    if obj.buildingType == typeId && obj.body.Group? {
      var parts := RecolorParts(obj.body.parts, newColor);
      assert parts == Recolored(obj, typeId, newColor).body.parts;
      assert obj in c.objects;
      UpdatedAt(c.objects, i, obj.(body := Group(parts)));
      c.SetObject(obj.(body := Group(parts)));
    } else {
      assert c.objects[i := Recolored(s[i], typeId, newColor)] == c.objects;
    }
  }

  /** Repainting position i extends the repainted prefix by one. */
  lemma RecoloredExtend(s: seq<SceneObj>, i: nat, typeId: string, newColor: string)
    requires i < |s|
    ensures |RecoloredAll(s[..i], typeId, newColor) + s[i..]| == |s|
    ensures (RecoloredAll(s[..i], typeId, newColor) + s[i..])[i] == s[i]
    ensures (RecoloredAll(s[..i], typeId, newColor) + s[i..])[i := Recolored(s[i], typeId, newColor)]
            == RecoloredAll(s[..i + 1], typeId, newColor) + s[i + 1..]
  {
    var a := RecoloredAll(s[..i], typeId, newColor) + s[i..];
    var b := RecoloredAll(s[..i + 1], typeId, newColor) + s[i + 1..];
    assert |a[i := Recolored(s[i], typeId, newColor)]| == |b|;
    forall k | 0 <= k < |b| ensures a[i := Recolored(s[i], typeId, newColor)][k] == b[k] {
      if k < i {
        assert a[k] == Recolored(s[k], typeId, newColor) == b[k];
      } else if k > i {
        assert a[k] == s[k] == b[k];
      }
    }
  }

  /**
   * The loop of `updateExistingBuildings` over a copy of the object list, rebuilding with
   * `createBuilding` of `b`; `mode` is `window.currentMode`.
   */
  method RedrawBuildings(b: SiteMapBuilding, mode: Mode) returns (aborted: bool)
    requires b.Valid()
    modifies b`buildingCount, b.canvas`objects, b.canvas`nextUid, b.canvas`active
    ensures b.Valid()
    ensures b.canvas.active == SelectionAfter(old(b.canvas.active), old(b.canvas.objects), b.canvas.objects)
    ensures var s := old(b.canvas.objects);
            var n := FirstPair(s);
            aborted == (n < |s|)
            && b.canvas.objects == AfterRedraw(s, old(b.canvas.nextUid), old(b.buildingCount), mode == Select)
            && b.buildingCount == old(b.buildingCount) + |Filter(s[..n], Redrawn)|
            && b.canvas.nextUid == old(b.canvas.nextUid) + |Filter(s[..n], Redrawn)|
  {
    ghost var u0 := b.canvas.nextUid;
    ghost var id0 := b.buildingCount;
    var objects := b.canvas.objects;
    aborted := false;
    var i := 0;
    ghost var kept: seq<SceneObj> := [];
    ghost var done: seq<SceneObj> := [];
    ghost var a0 := b.canvas.active;
    RedrawStart(b, mode == Select);
    while i < |objects|
      invariant 0 <= i <= |objects| && objects == old(b.canvas.objects)
      invariant RedrawInv(b, objects, i, u0, id0, mode == Select, kept, done, a0)
      decreases |objects| - i
    {
      var paired;
      paired, kept, done := RedrawStep(b, objects, i, mode, u0, id0, kept, done, a0);
      if paired {
        aborted := true;
        return;
      }
      i := i + 1;
    }
    FirstPairAt(objects, i);
    assert objects[..i] == objects && objects[i..] == [];
  }

  /** Before the first object, the redraw state holds with nothing skipped or rebuilt. */
  lemma RedrawStart(b: SiteMapBuilding, sel: bool)
    requires b.Valid()
    ensures RedrawInv(b, b.canvas.objects, 0, b.canvas.nextUid, b.buildingCount, sel, [], [], b.canvas.active)
  {
    var a0 := b.canvas.active;
    assert |a0| == 1 ==> a0[0] in b.canvas.active;
    FilterKeepsAll([], NotRedrawn);
    FilterKeepsAll([], Redrawn);
    assert b.canvas.objects[..0] == [];
  }

  /**
   * The state of the redraw after the objects s[..i]: b is consistent, no paired type-A/B
   * building came before, and the list holds the skipped objects, the ones not yet reached
   * and the rebuilt buildings, with the counters moved by one per rebuilt building. The
   * selection `a0` was cleared if its object has gone, and was never given to a new object.
   */
  ghost predicate RedrawInv(b: SiteMapBuilding, s: seq<SceneObj>, i: nat, u0: nat, id0: int, sel: bool,
                            kept: seq<SceneObj>, done: seq<SceneObj>, a0: seq<nat>)
    reads b, b.canvas
  {
    i <= |s| && b.Valid() && FirstPair(s) >= i
    && kept == Filter(s[..i], NotRedrawn) && done == Filter(s[..i], Redrawn)
    && b.canvas.objects == kept + s[i..] + Rebuilds(done, u0, id0, sel)
    && b.canvas.nextUid == u0 + |done| && b.buildingCount == id0 + |done|
    && SelectionKept(b.canvas, a0, s, u0)
  }

  /**
   * The selection of `c` is what `canvas.remove` leaves of `a0` since the list `s`, and the
   * selected identity, handed out before `u0`, is on the canvas only if it was in `s`.
   */
  ghost predicate SelectionKept(c: Canvas, a0: seq<nat>, s: seq<SceneObj>, u0: nat)
    reads c
  {
    c.active == SelectionAfter(a0, s, c.objects)
    && (|a0| == 1 ==> a0[0] < u0 && (a0[0] in Uids(c.objects) ==> a0[0] in Uids(s)))
  }

  /** One turn of the redraw loop, on the object at position i. */
  method RedrawStep(b: SiteMapBuilding, objects: seq<SceneObj>, i: nat, mode: Mode, ghost u0: nat,
                    ghost id0: int, ghost kept: seq<SceneObj>, ghost done: seq<SceneObj>, ghost a0: seq<nat>)
    returns (paired: bool, ghost kept': seq<SceneObj>, ghost done': seq<SceneObj>)
    requires i < |objects| && RedrawInv(b, objects, i, u0, id0, mode == Select, kept, done, a0)
    modifies b`buildingCount, b.canvas`objects, b.canvas`nextUid, b.canvas`active
    ensures paired ==> b.Valid() && FirstPair(objects) == i && SelectionKept(b.canvas, a0, objects, u0)
                       && b.canvas.objects == StoppedAt(objects, i, u0, id0, mode == Select)
                       && b.canvas.nextUid == u0 + |done| && b.buildingCount == id0 + |done|
                       && done == Filter(objects[..i], Redrawn)
    ensures !paired ==> RedrawInv(b, objects, i + 1, u0, id0, mode == Select, kept', done', a0)
  {
    var obj := objects[i];
    FilterStep(objects, i);
    assert objects[i..] == [obj] + objects[i + 1..];
    kept', done' := kept, done;
    paired := false;
    if obj.buildingType == "A" || obj.buildingType == "B" {
      paired := RedrawOne(b, obj, mode, kept, objects[i + 1..], done, u0, id0, a0, objects);
      if paired {
        FirstPairAt(objects, i);
        return;
      }
      done' := done + [obj];
    } else {
      KeepAdvance(b, objects, i, u0, id0, mode == Select, kept, done, a0);
      kept' := kept + [obj];
    }
  }

  /** Passing over an object that is not redrawn moves the redraw state on by one. */
  lemma KeepAdvance(b: SiteMapBuilding, s: seq<SceneObj>, i: nat, u0: nat, id0: int, sel: bool,
                    kept: seq<SceneObj>, done: seq<SceneObj>, a0: seq<nat>)
    requires i < |s| && RedrawInv(b, s, i, u0, id0, sel, kept, done, a0) && !Redrawn(s[i])
    ensures RedrawInv(b, s, i + 1, u0, id0, sel, kept + [s[i]], done, a0)
  {
    FilterStep(s, i);
    assert s[i..] == [s[i]] + s[i + 1..];
    KeepStep(kept, s[i], s[i + 1..], Rebuilds(done, u0, id0, sel));
  }

  /** The filters of the handled prefix grow by the next object. */
  lemma FilterStep(s: seq<SceneObj>, i: nat)
    requires i < |s|
    ensures Filter(s[..i + 1], Redrawn) == Filter(s[..i], Redrawn) + (if Redrawn(s[i]) then [s[i]] else [])
    ensures Filter(s[..i + 1], NotRedrawn) == Filter(s[..i], NotRedrawn) + (if Redrawn(s[i]) then [] else [s[i]])
  {
    assert s[..i + 1] == s[..i] + [s[i]];
    FilterAppend(s[..i], [s[i]], Redrawn);
    FilterAppend(s[..i], [s[i]], NotRedrawn);
  }

  /**
   * One type-A/B building of the redraw: it is removed; unless it is paired it is created
   * again with `createBuilding` and added on top.
   */
  method RedrawOne(b: SiteMapBuilding, obj: SceneObj, mode: Mode, ghost kept: seq<SceneObj>,
                   ghost rest: seq<SceneObj>, ghost done: seq<SceneObj>, ghost u0: nat, ghost id0: int,
                   ghost a0: seq<nat>, ghost s: seq<SceneObj>)
    returns (paired: bool)
    requires b.Valid() && Redrawn(obj)
    requires b.canvas.nextUid == u0 + |done| && b.buildingCount == id0 + |done|
    requires b.canvas.objects == kept + ([obj] + rest) + Rebuilds(done, u0, id0, mode == Select)
    requires SelectionKept(b.canvas, a0, s, u0)
    modifies b`buildingCount, b.canvas`objects, b.canvas`nextUid, b.canvas`active
    ensures b.Valid() && paired == obj.isPair
    ensures SelectionKept(b.canvas, a0, s, u0)
    ensures paired ==>
              b.canvas.objects == kept + rest + Rebuilds(done, u0, id0, mode == Select)
              && b.canvas.nextUid == u0 + |done| && b.buildingCount == id0 + |done|
    ensures !paired ==>
              b.canvas.objects == kept + rest + Rebuilds(done + [obj], u0, id0, mode == Select)
              && b.canvas.nextUid == u0 + |done + [obj]| && b.buildingCount == id0 + |done + [obj]|
  {
    ghost var rb := Rebuilds(done, u0, id0, mode == Select);
    RemoveStep(kept, obj, rest, rb, b.canvas.objects);
    DeselectStep(a0, s, b.canvas.objects, obj.uid);
    b.canvas.Remove(obj.uid);
    if obj.isPair {
      // createPairBuilding is not defined: the TypeError ends the pass here
      return true;
    }
    paired := false;
    Recreate(b, obj, mode, kept, rest, done, u0, id0, a0, s);
  }

  /** `createBuilding` at the removed building's place, angle and type, added on top. */
  method Recreate(b: SiteMapBuilding, obj: SceneObj, mode: Mode, ghost kept: seq<SceneObj>,
                  ghost rest: seq<SceneObj>, ghost done: seq<SceneObj>, ghost u0: nat, ghost id0: int,
                  ghost a0: seq<nat>, ghost s: seq<SceneObj>)
    requires b.Valid() && Redrawn(obj)
    requires b.canvas.nextUid == u0 + |done| && b.buildingCount == id0 + |done|
    requires b.canvas.objects == kept + rest + Rebuilds(done, u0, id0, mode == Select)
    requires SelectionKept(b.canvas, a0, s, u0)
    modifies b`buildingCount, b.canvas`objects, b.canvas`nextUid
    ensures b.Valid() && SelectionKept(b.canvas, a0, s, u0)
    ensures b.canvas.objects == kept + rest + Rebuilds(done + [obj], u0, id0, mode == Select)
    ensures b.canvas.nextUid == u0 + |done + [obj]| && b.buildingCount == id0 + |done + [obj]|
  {
    var newBuilding := b.CreateBuilding(obj.left, obj.top, obj.buildingType, obj.angle, mode);
    SelectionAfterAdd(a0, s, b.canvas.objects, newBuilding.value);
    b.canvas.Add(newBuilding.value);
    RebuildsSnoc(done, obj, u0, id0, mode == Select);
  }

  /** Passing over the object `o`, which stays where it is. */
  lemma KeepStep(kept: seq<SceneObj>, o: SceneObj, rest: seq<SceneObj>, rb: seq<SceneObj>)
    ensures kept + ([o] + rest) + rb == (kept + [o]) + rest + rb
  {
  }

  /** Removing the object `o` that sits between `kept` and the rest. */
  lemma RemoveStep(kept: seq<SceneObj>, o: SceneObj, rest: seq<SceneObj>, rb: seq<SceneObj>, x: seq<SceneObj>)
    requires x == kept + ([o] + rest) + rb && UniqueUids(x)
    ensures Without(x, o.uid) == kept + rest + rb
  {
    assert x == kept + [o] + (rest + rb);
    assert x[|kept|] == o;
    WithoutAt(x, |kept|);
    assert x[..|kept|] == kept;
    assert x[|kept| + 1..] == rest + rb;
  }

  // ---------------------------------------------------------------- the application

  /**
   * `appState` with the two modules it drives: `sc` is js/canvas.js (and its Fabric canvas),
   * `b` is js/building.js placing onto the same canvas. `selectionRect` is the rubber band
   * object itself, whose copy on the canvas `mouse:move` keeps in step.
   */
  class SiteMapApp {
    const sc: SiteMapCanvas
    const b: SiteMapBuilding
    var currentMode: Mode
    var isDrawing: bool
    var startPoint: Option<Point>
    var selectionRect: Option<SceneObj>
    var selectedBuildingType: Option<SelectedType>

    ghost predicate Valid()
      reads this, sc, b, sc.canvas, b.canvas
    {
      sc.canvas == b.canvas && sc.Valid() && b.Valid()
      && (selectionRect.Some? ==> startPoint.Some? && selectionRect.value.uid < sc.canvas.nextUid)
      // the rubber band is neither selectable nor evented, so it is never the selection
      && (selectionRect.Some? ==> sc.canvas.active != [selectionRect.value.uid])
    }

    /** The state `init` starts from: select mode, no rubber band, no type chosen. */
    constructor (sc: SiteMapCanvas, b: SiteMapBuilding)
      requires sc.canvas == b.canvas && sc.Valid() && b.Valid()
      ensures Valid() && this.sc == sc && this.b == b
      ensures currentMode == Select && !isDrawing && startPoint == None && selectionRect == None
      ensures selectedBuildingType == None
    {
      this.sc := sc;
      this.b := b;
      currentMode := Select;
      isDrawing := false;
      startPoint := None;
      selectionRect := None;
      selectedBuildingType := None;
    }

    /**
     * `setMode(mode)`: no mode is refused; free drawing is on exactly in draw mode, rubber-band
     * selection exactly in select mode, and every object that is not excluded becomes
     * selectable exactly in select mode. Returns the status line it shows.
     */
    method SetMode(m: Mode) returns (msg: StatusMessage)
      requires Valid()
      modifies this`currentMode, sc.canvas`objects, sc.canvas`isDrawingMode, sc.canvas`selection
      ensures Valid() && currentMode == m
      ensures sc.canvas.isDrawingMode == (m == Draw) && sc.canvas.selection == (m == Select)
      ensures sc.canvas.objects == Reselected(old(sc.canvas.objects), sc.backgroundImage, m)
      ensures msg == StatusFor(m, b.selectedBuildingType)
    {
      currentMode := m;
      sc.canvas.isDrawingMode := m == Draw;
      sc.canvas.selection := m == Select;
      ApplyMode(sc.canvas, sc.backgroundImage, m);
      msg := StatusFor(m, b.selectedBuildingType);
    }

    /** `getStatusMessage`. */
    function GetStatusMessage(): (r: StatusMessage)
      reads this, b
      ensures r == ChooseTypeHint <==> currentMode != Text && currentMode != Draw && b.selectedBuildingType.None?
    {
      StatusFor(currentMode, b.selectedBuildingType)
    }

    /**
     * `maintainLayerOrder`: the background to the back, the first drawing frame to the back
     * (one step forward again when there is a background), then each `isGrid` object to the
     * back (one step forward again when there is a frame or a background).
     */
    method MaintainLayerOrder()
      requires Valid()
      modifies sc.canvas`objects
      ensures Valid()
      ensures sc.canvas.objects == LayerOrder(old(sc.canvas.objects), sc.backgroundImage)
    {
      ReorderLayers(sc.canvas, sc.backgroundImage);
    }

    /**
     * `updateExistingBuildings`: each type-A/B building of the object list as it was is
     * removed and created again at the same place, angle and type, on top. The pass stops with
     * `aborted` at the first paired one, after removing it, because `createPairBuilding` is
     * missing; `createBuilding` raises the counter for each rebuilt building.
     */
    method UpdateExistingBuildings() returns (aborted: bool)
      requires Valid()
      modifies b`buildingCount, sc.canvas`objects, sc.canvas`nextUid, sc.canvas`active
      ensures Valid()
      ensures sc.canvas.active == SelectionAfter(old(sc.canvas.active), old(sc.canvas.objects), sc.canvas.objects)
      ensures var s := old(sc.canvas.objects);
              var n := FirstPair(s);
              aborted == (n < |s|)
              && sc.canvas.objects
                 == AfterRedraw(s, old(sc.canvas.nextUid), old(b.buildingCount), currentMode == Select)
              && b.buildingCount == old(b.buildingCount) + |Filter(s[..n], Redrawn)|
              && sc.canvas.nextUid == old(sc.canvas.nextUid) + |Filter(s[..n], Redrawn)|
    {
      aborted := RedrawBuildings(b, currentMode);
    }

    /**
     * `updateBuildingColors(type)`: in every group of that type, each shape whose fill is not
     * the entrance-marker colour takes the catalogue colour (or grey when `useColor` is off).
     */
    method UpdateBuildingColors(typeId: string, useColor: bool)
      requires Valid() && IsTypeKey(typeId)
      modifies sc.canvas`objects
      ensures Valid()
      ensures sc.canvas.objects == RecoloredAll(old(sc.canvas.objects), typeId, ColorFor(typeId, useColor))
    {
      var newColor := if useColor then LookupType(typeId).value.color else "#cccccc";
      RecolorAll(sc.canvas, typeId, newColor);
    }

    /** A building option is clicked: `setSelectedBuildingType`, mirrored into `appState`. */
    method ChooseBuildingType(key: string) returns (msg: StatusMessage)
      requires Valid()
      modifies this`selectedBuildingType, b`selectedBuildingType
      ensures Valid() && selectedBuildingType == b.selectedBuildingType
      ensures IsTypeKey(key) ==> b.selectedBuildingType.Some? && b.selectedBuildingType.value.typeId == key
      ensures !IsTypeKey(key) ==> b.selectedBuildingType == old(b.selectedBuildingType)
      ensures msg == StatusFor(currentMode, b.selectedBuildingType)
    {
      var selected := b.SetSelectedBuildingType(key);
      selectedBuildingType := selected;
      msg := StatusFor(currentMode, b.selectedBuildingType);
    }

    /**
     * `mouse:down` at `p`: text mode asks for a text (not part of this model), place mode places
     * one building, area mode starts a rubber band at `p`; anything else does nothing.
     */
    method MouseDown(p: Point, hasTarget: bool) returns (g: Gesture, st: Option<Status>)
      requires Valid()
      modifies this`isDrawing, this`startPoint, this`selectionRect
      modifies b`buildingCount, sc.canvas`objects, sc.canvas`nextUid
      ensures Valid()
      ensures g == DownGesture(currentMode, b.selectedBuildingType.Some?, hasTarget)
      ensures st.Some? <==> g == PlaceOne
      ensures g != StartBand ==>
                isDrawing == old(isDrawing) && startPoint == old(startPoint)
                && selectionRect == old(selectionRect)
      ensures (g == AddText || g == Ignore) ==>
                sc.canvas.objects == old(sc.canvas.objects) && sc.canvas.nextUid == old(sc.canvas.nextUid)
                && b.buildingCount == old(b.buildingCount)
      ensures g == PlaceOne ==>
                var key := b.selectedBuildingType.value.typeId;
                var q := SnapCoordinatesToGrid(p.x, p.y);
                st == Some(Placed(key)) && b.buildingCount == old(b.buildingCount) + 1
                && sc.canvas.objects == old(sc.canvas.objects)
                   + [Footprint(LookupType(key).value, q.x, q.y, 0.0, old(sc.canvas.nextUid), b.buildingCount,
                                currentMode == Select)]
      ensures g == StartBand ==>
                isDrawing && startPoint == Some(p)
                && selectionRect == Some(BandRect(old(sc.canvas.nextUid), p))
                && sc.canvas.objects == old(sc.canvas.objects) + [selectionRect.value]
                && sc.canvas.nextUid == old(sc.canvas.nextUid) + 1 && b.buildingCount == old(b.buildingCount)
    {
      g := DownGesture(currentMode, b.selectedBuildingType.Some?, hasTarget);
      st := None;
      if currentMode == Text && !hasTarget {
        // placeText is not part of this model
      } else if currentMode == Place && b.selectedBuildingType.Some? && !hasTarget {
        var placed := b.PlaceBuilding(p.x, p.y, currentMode);
        st := Some(placed);
      } else if currentMode.Area? && b.selectedBuildingType.Some? && !hasTarget {
        BeginBand(p);
      }
    }

    /** Area mode's `mouse:down`: a zero-size rubber band at `p` goes on top of the canvas. */
    method BeginBand(p: Point)
      requires Valid()
      modifies this`isDrawing, this`startPoint, this`selectionRect, sc.canvas`objects, sc.canvas`nextUid
      ensures Valid()
      ensures isDrawing && startPoint == Some(p)
              && selectionRect == Some(BandRect(old(sc.canvas.nextUid), p))
              && sc.canvas.objects == old(sc.canvas.objects) + [selectionRect.value]
              && sc.canvas.nextUid == old(sc.canvas.nextUid) + 1
    {
      isDrawing := true;
      startPoint := Some(p);
      assert sc.canvas.nextUid !in sc.canvas.active;
      var u := sc.canvas.NewUid();
      var rect := BandRect(u, p);
      selectionRect := Some(rect);
      sc.canvas.Add(rect);
    }

    /**
     * `mouse:move` to `p`: while a band is being drawn, it becomes the rectangle spanned by the
     * start point and `p`, and the capacity of that size is reported (`updateGridInfo`).
     */
    method MouseMove(p: Point) returns (info: Option<GridInfo>)
      requires Valid()
      modifies this`selectionRect, sc.canvas`objects
      ensures Valid()
      ensures !(old(isDrawing) && old(selectionRect).Some?) ==>
                selectionRect == old(selectionRect) && sc.canvas.objects == old(sc.canvas.objects) && info.None?
      ensures old(isDrawing) && old(selectionRect).Some? ==>
                var band := RubberBand(startPoint.value, p);
                var r := old(selectionRect).value.(left := band.left, top := band.top,
                                                   width := band.width, height := band.height);
                selectionRect == Some(r)
                && sc.canvas.objects == Updated(old(sc.canvas.objects), r)
                && info == b.GridInfoFor(band.width, band.height)
    {
      info := None;
      if !isDrawing || selectionRect.None? {
        return;
      }
      var band := RubberBand(startPoint.value, p);
      var r := selectionRect.value.(left := band.left, top := band.top, width := band.width, height := band.height);
      selectionRect := Some(r);
      sc.canvas.SetObject(r);
      info := b.GridInfoFor(band.width, band.height);
    }

    /**
     * `mouse:up`: the band drawing ends; a band larger than the minimum on both axes is filled
     * by area placement, and the band is taken off the canvas either way.
     */
    method MouseUp() returns (st: Option<Status>)
      requires Valid()
      modifies this`isDrawing, this`selectionRect
      modifies b`buildingCount, sc.canvas`objects, sc.canvas`nextUid, sc.canvas`active
      ensures Valid() && sc.canvas.active == old(sc.canvas.active)
      ensures !(old(isDrawing) && old(selectionRect).Some?) ==>
                isDrawing == old(isDrawing) && selectionRect == old(selectionRect) && st.None?
                && sc.canvas.objects == old(sc.canvas.objects) && b.buildingCount == old(b.buildingCount)
                && sc.canvas.nextUid == old(sc.canvas.nextUid)
      ensures old(isDrawing) && old(selectionRect).Some? ==>
                var r := old(selectionRect).value;
                !isDrawing && selectionRect == None
                && (st.Some? <==> LargeEnough(r))
                && (!LargeEnough(r) ==>
                      sc.canvas.objects == Without(old(sc.canvas.objects), r.uid)
                      && b.buildingCount == old(b.buildingCount) && sc.canvas.nextUid == old(sc.canvas.nextUid))
      ensures old(isDrawing) && old(selectionRect).Some? && LargeEnough(old(selectionRect).value) ==>
                var r := old(selectionRect).value;
                var area := Area.Area(r.left, r.top, r.width, r.height);
                if b.selectedBuildingType.None? then
                  st == Some(SelectTypeFirst) && sc.canvas.objects == Without(old(sc.canvas.objects), r.uid)
                  && b.buildingCount == old(b.buildingCount) && sc.canvas.nextUid == old(sc.canvas.nextUid)
                else
                  var def := LookupType(b.selectedBuildingType.value.typeId).value;
                  var cap := AreaCapacity(def, area, b.shortSide, b.longSide);
                  if cap.cols < 1 || cap.rows < 1 then
                    st == Some(AreaTooSmall) && sc.canvas.objects == Without(old(sc.canvas.objects), r.uid)
                    && b.buildingCount == old(b.buildingCount) && sc.canvas.nextUid == old(sc.canvas.nextUid)
                  else
                    st == Some(PlacedMany(cap.cols * cap.rows))
                    && b.buildingCount == old(b.buildingCount) + cap.cols * cap.rows
                    && sc.canvas.objects
                       == Without(old(sc.canvas.objects)
                                  + Tiles(AreaTiling(def, area, b.shortSide, b.longSide, old(sc.canvas.nextUid),
                                                     old(b.buildingCount), currentMode == Select), cap.rows),
                                  r.uid)
    {
      st := None;
      if !isDrawing || selectionRect.None? {
        return;
      }
      isDrawing := false;
      var r := selectionRect.value;
      if r.width > MIN_WIDTH && r.height > MIN_HEIGHT {
        var placed := b.PlaceMultipleBuildings(Area.Area(r.left, r.top, r.width, r.height), currentMode);
        st := Some(placed);
      }
      sc.canvas.Remove(r.uid);
      selectionRect := None;
    }

    /**
     * `object:moving` on `target`: in select mode a building is snapped to the grid while it
     * is dragged; nothing else moves.
     */
    method ObjectMoving(target: nat)
      requires Valid()
      modifies sc.canvas`objects
      ensures Valid()
      ensures var t := Find(old(sc.canvas.objects), target);
              if t.Some? && currentMode == Select && HasBuildingType(t.value)
              then sc.canvas.objects == Updated(old(sc.canvas.objects), Dragged(t.value, currentMode))
              else sc.canvas.objects == old(sc.canvas.objects)
    {
      var t := Find(sc.canvas.objects, target);
      if t.Some? && currentMode == Select && HasBuildingType(t.value) {
        var snapped := SnapCoordinatesToGrid(t.value.left, t.value.top);
        sc.canvas.SetObject(t.value.(left := snapped.x, top := snapped.y));
      }
    }

    /**
     * A spacing slider moves: `setSpacing` with the other side undefined, and while a band is
     * being drawn in area mode its capacity is reported again.
     */
    method SpacingInput(newShortSide: Option<real>, newLongSide: Option<real>) returns (info: Option<GridInfo>)
      requires Valid()
      requires newShortSide.Some? ==> newShortSide.value >= 0.0
      requires newLongSide.Some? ==> newLongSide.value >= 0.0
      modifies b`shortSide, b`longSide
      ensures Valid()
      ensures b.shortSide == if newShortSide.Some? then newShortSide.value else old(b.shortSide)
      ensures b.longSide == if newLongSide.Some? then newLongSide.value else old(b.longSide)
      ensures currentMode.Area? && selectionRect.Some? ==>
                info == b.GridInfoFor(selectionRect.value.width, selectionRect.value.height)
      ensures !(currentMode.Area? && selectionRect.Some?) ==> info.None?
    {
      b.SetSpacing(newShortSide, newLongSide);
      info := None;
      if currentMode.Area? && selectionRect.Some? {
        info := b.GridInfoFor(selectionRect.value.width, selectionRect.value.height);
      }
    }
  }

  /** The first paired type-A/B object, seen from a position before which there is none. */
  lemma FirstPairAt(s: seq<SceneObj>, i: nat)
    requires i <= |s| && FirstPair(s) >= i
    requires i < |s| ==> Redrawn(s[i]) && s[i].isPair
    ensures FirstPair(s) == i
  {
    if i < |s| {
      assert Redrawn(s[i]) && s[i].isPair;
    }
  }
}
