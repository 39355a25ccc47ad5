/**
 * js/building.js: building footprints, single and area placement, and the module state
 * (`buildingCount`, `selectedBuildingType`, `spacingState`).
 */
module Building {
  import opened Common
  import opened Config
  import opened Grid
  import opened Scene

  /** `selectedBuildingType`: the chosen type with its footprint already in pixels. */
  datatype SelectedType = SelectedType(typeId: string, width: real, height: real, color: string)

  /** The selected area, in canvas pixels. */
  datatype Area = Area(left: real, top: real, width: real, height: real)

  /** What the operations report through `updateStatus`. */
  datatype Status = SelectTypeFirst | Placed(typeId: string) | AreaTooSmall | PlacedMany(count: int)

  /** The body rectangle and, for types with an entrance, the entrance marker, in group coordinates. */
  function FootprintParts(def: BuildingTypeDef): seq<Rect> {
    var w := def.width * SCALE;
    var h := def.height * SCALE;
    [Rect(0.0, 0.0, w, h, def.color)]
    + (if def.hasEntrance
       then [Rect(w / 2.0 - MARKER_WIDTH / 2.0, h - MARKER_OFFSET_FROM_BOTTOM, MARKER_WIDTH, MARKER_HEIGHT, MARKER_COLOR)]
       else [])
  }

  /** The group `createBuilding` returns, with identity `uid` and `buildingId` `id`. */
  function Footprint(def: BuildingTypeDef, x: real, y: real, rotation: real,
                     uid: nat, id: int, selectable: bool): SceneObj {
    NewObject(uid, Group(FootprintParts(def))).(
      left := x, top := y, width := def.width * SCALE, height := def.height * SCALE, angle := rotation,
      selectable := selectable, buildingType := def.typeId, buildingId := id)
  }

  /**
   * A footprint of a catalogue type: metres times SCALE in pixels, at (x, y), tagged with its
   * type; it carries an entrance marker exactly for types with an entrance, and the marker is
   * centred horizontally on the body, its top MARKER_OFFSET_FROM_BOTTOM above the bottom edge,
   * and lies inside the body.
   */
  lemma FootprintShape(key: string, x: real, y: real, rotation: real, uid: nat, id: int, selectable: bool)
    requires IsTypeKey(key)
    ensures var def := LookupType(key).value;
            var o := Footprint(def, x, y, rotation, uid, id, selectable);
            var w := def.width * SCALE;
            var h := def.height * SCALE;
            o.left == x && o.top == y && o.angle == rotation && o.width == w && o.height == h
            && o.buildingType == key && HasBuildingType(o) && o.buildingId == id && o.selectable == selectable
            && o.body.Group? && o.body.parts[0] == Rect(0.0, 0.0, w, h, def.color)
            && (|o.body.parts| == 2 <==> def.hasEntrance) && 1 <= |o.body.parts| <= 2
            && (def.hasEntrance ==>
                  var m := o.body.parts[1];
                  m.left + m.width / 2.0 == w / 2.0 && m.top == h - MARKER_OFFSET_FROM_BOTTOM
                  && m.width == MARKER_WIDTH && m.height == MARKER_HEIGHT && m.fill == MARKER_COLOR
                  && 0.0 <= m.left && m.left + m.width <= w && 0.0 <= m.top && m.top + m.height <= h)
  {
  }

  /**
   * The spacing after slack redistribution along one axis: when `count` footprints with the
   * base gaps need less than `avail`, the leftover is divided by `count` and added to the gap.
   */
  function AdjustSpacing(count: int, size: real, base: real, avail: real): (r: real)
    ensures count <= 0 ==> r == base
  {
    if count > 0 then
      var required := count as real * size + (count - 1) as real * base;
      if required < avail then base + (avail - required) / count as real else base
    else base
  }

  /** Redistribution never makes the spacing smaller than the base spacing. */
  lemma AdjustNotBelowBase(count: int, size: real, base: real, avail: real)
    ensures AdjustSpacing(count, size, base, avail) >= base
    ensures count > 0 && count as real * size + (count - 1) as real * base < avail ==>
              AdjustSpacing(count, size, base, avail) > base
  {
  }

  /** The distance from the first footprint's near edge to the last one's far edge. */
  function Span(count: int, size: real, gap: real): real {
    count as real * size + (count - 1) as real * gap
  }

  /**
   * Because the leftover is divided by `count` rather than by the `count - 1` gaps, the
   * footprints end `leftover / count` before the far edge of the area instead of at it.
   */
  lemma FarEdgeMargin(count: int, size: real, base: real, avail: real)
    requires count > 0 && Span(count, size, base) < avail
    ensures var leftover := avail - Span(count, size, base);
            Span(count, size, AdjustSpacing(count, size, base, avail)) == avail - leftover / count as real
            && leftover / count as real > 0.0
  {
    var n := count as real;
    var e := avail - Span(count, size, base);
    assert AdjustSpacing(count, size, base, avail) == base + e / n;
    assert (n - 1.0) * (e / n) == e - e / n;
  }

  /**
   * Along one axis, with `count` the capacity, footprint number c (0-based, c < count) starts
   * at or after the near edge and ends at or before the far edge.
   */
  lemma TileInside(avail: real, size: real, base: real, c: nat, step: real)
    requires avail >= 0.0 && size > 0.0 && base >= 0.0
    requires c < FitCount(avail, size, base)
    requires step == size + AdjustSpacing(FitCount(avail, size, base), size, base, avail)
    ensures 0.0 <= c as real * step && c as real * step + size <= avail
  {
    var n := FitCount(avail, size, base);
    FitCountFits(avail, size, base);
    AdjustNotBelowBase(n, size, base, avail);
    LastTileEnd(n, size, base, avail, step);
    StepBound(c, n, step);
  }

  /** The far edge of the last of n fitting footprints, after redistribution, is inside. */
  lemma LastTileEnd(n: int, size: real, base: real, avail: real, step: real)
    requires n >= 1 && Span(n, size, base) <= avail
    requires step == size + AdjustSpacing(n, size, base, avail)
    ensures (n - 1) as real * step + size <= avail
  {
    var adj := AdjustSpacing(n, size, base, avail);
    if Span(n, size, base) < avail {
      FarEdgeMargin(n, size, base, avail);
    }
    assert (n - 1) as real * step + size == Span(n, size, adj);
  }

  lemma StepBound(c: nat, n: int, step: real)
    requires c < n && step >= 0.0
    ensures 0.0 <= c as real * step <= (n - 1) as real * step
  {
    MulNonNegative(c as real, step);
    MulNonNegative((n - 1 - c) as real, step);
  }

  /** Along one axis, footprints c1 < c2 do not overlap: c1's far edge is at or before c2's start. */
  lemma TilesApart(size: real, adj: real, c1: nat, c2: nat)
    requires size > 0.0 && adj >= 0.0 && c1 < c2
    ensures c1 as real * (size + adj) + size <= c2 as real * (size + adj)
  {
    assert c2 as real * (size + adj) - c1 as real * (size + adj) == (c2 - c1) as real * (size + adj);
    var d := (c2 - c1) as real;
    MulNonNegative(d - 1.0, size + adj);
    assert d * (size + adj) == (d - 1.0) * (size + adj) + (size + adj);
  }

  lemma MulNonNegative(a: real, b: real)
    requires a >= 0.0 && b >= 0.0
    ensures a * b >= 0.0
  {
  }

  /** The capacity `placeMultipleBuildings` computes for type `def`, area `area` and the spacing in metres. */
  function AreaCapacity(def: BuildingTypeDef, area: Area, shortSide: real, longSide: real): Capacity
    requires def.width > 0.0 && def.height > 0.0 && shortSide >= 0.0 && longSide >= 0.0
  {
    CalculatePlacementCapacity(area.width, area.height, def.width * SCALE, def.height * SCALE,
                               shortSide * SCALE, longSide * SCALE)
  }

  /**
   * The layout of an area placement: the origin, the distance from one footprint to the next
   * along each axis, the number of columns, and the first identity and the counter value
   * before the first footprint.
   */
  datatype Tiling = Tiling(def: BuildingTypeDef, left: real, top: real, stepX: real, stepY: real,
                           cols: nat, firstUid: nat, firstId: int, selectable: bool)

  /** The tiling `placeMultipleBuildings` lays out. */
  function AreaTiling(def: BuildingTypeDef, area: Area, shortSide: real, longSide: real,
                      firstUid: nat, firstId: int, selectable: bool): Tiling
    requires def.width > 0.0 && def.height > 0.0 && shortSide >= 0.0 && longSide >= 0.0
  {
    var bw := def.width * SCALE;
    var bh := def.height * SCALE;
    var cap := AreaCapacity(def, area, shortSide, longSide);
    Tiling(def, area.left, area.top,
           bw + AdjustSpacing(cap.cols, bw, shortSide * SCALE, area.width),
           bh + AdjustSpacing(cap.rows, bh, longSide * SCALE, area.height),
           if cap.cols > 0 then cap.cols else 0, firstUid, firstId, selectable)
  }

  /** The footprint in row r, column c; identities and building ids count up row by row. */
  function TileAt(t: Tiling, r: nat, c: nat): SceneObj {
    var k := r * t.cols + c;
    Footprint(t.def, t.left + c as real * t.stepX, t.top + r as real * t.stepY, 0.0,
              t.firstUid + k, t.firstId + k + 1, t.selectable)
  }

  /** The first n footprints of row r. */
  function TileRow(t: Tiling, r: nat, n: nat): (s: seq<SceneObj>)
    ensures |s| == n
  {
    seq(n, c requires 0 <= c < n => TileAt(t, r, c))
  }

  /** The footprints of the first `rows` rows, row after row. */
  function Tiles(t: Tiling, rows: nat): (s: seq<SceneObj>)
    ensures |s| == rows * t.cols
  {
    if rows == 0 then [] else Tiles(t, rows - 1) + TileRow(t, rows - 1, t.cols)
  }

  /** Row-major order: the footprint at row r, column c is number r * cols + c. */
  lemma {:induction false} TilesAt(t: Tiling, rows: nat, r: nat, c: nat)
    requires r < rows && c < t.cols
    ensures r * t.cols + c < rows * t.cols && Tiles(t, rows)[r * t.cols + c] == TileAt(t, r, c)
  {
    var p := Tiles(t, rows - 1);
    assert |p| == (rows - 1) * t.cols;
    if r < rows - 1 {
      TilesAt(t, rows - 1, r, c);
    } else {
      assert r * t.cols == |p|;
    }
  }

  /** The total `updateGridInfo` shows is the number of footprints an area placement lays out. */
  lemma TotalIsTileCount(def: BuildingTypeDef, area: Area, shortSide: real, longSide: real,
                         firstUid: nat, firstId: int, selectable: bool)
    requires def.width > 0.0 && def.height > 0.0 && shortSide >= 0.0 && longSide >= 0.0
    requires AreaCapacity(def, area, shortSide, longSide).cols >= 1
    requires AreaCapacity(def, area, shortSide, longSide).rows >= 1
    ensures var cap := AreaCapacity(def, area, shortSide, longSide);
            var t := AreaTiling(def, area, shortSide, longSide, firstUid, firstId, selectable);
            |Tiles(t, cap.rows)| == cap.total
  {
  }

  /** Where footprint (r, c) of a tiling sits and how large it is. */
  lemma TileAtPosition(t: Tiling, r: nat, c: nat)
    ensures var o := TileAt(t, r, c);
            o.left == t.left + c as real * t.stepX && o.top == t.top + r as real * t.stepY
            && o.width == t.def.width * SCALE && o.height == t.def.height * SCALE
  {
  }

  lemma TileRowSnoc(t: Tiling, r: nat, c: nat)
    ensures TileRow(t, r, c + 1) == TileRow(t, r, c) + [TileAt(t, r, c)]
  {
  }

  lemma AppendAssoc(a: seq<SceneObj>, b: seq<SceneObj>, c: seq<SceneObj>, x: SceneObj)
    ensures a + b + c + [x] == a + b + (c + [x])
  {
  }

  lemma TileAtIs(t: Tiling, r: nat, c: nat, x: real, y: real, uid: nat, id: int)
    requires x == t.left + c as real * t.stepX && y == t.top + r as real * t.stepY
    requires uid == t.firstUid + r * t.cols + c && id == t.firstId + r * t.cols + c + 1
    ensures TileAt(t, r, c) == Footprint(t.def, x, y, 0.0, uid, id, t.selectable)
  {
  }

  /** Every footprint of an area placement lies inside the area. */
  lemma TilesInsideArea(def: BuildingTypeDef, area: Area, shortSide: real, longSide: real,
                        firstUid: nat, firstId: int, selectable: bool, r: nat, c: nat)
    requires def.width > 0.0 && def.height > 0.0 && area.width >= 0.0 && area.height >= 0.0
    requires shortSide >= 0.0 && longSide >= 0.0
    requires var cap := AreaCapacity(def, area, shortSide, longSide);
             r < cap.rows && c < cap.cols
    ensures var o := TileAt(AreaTiling(def, area, shortSide, longSide, firstUid, firstId, selectable), r, c);
            area.left <= o.left && o.left + o.width <= area.left + area.width
            && area.top <= o.top && o.top + o.height <= area.top + area.height
  {
    var t := AreaTiling(def, area, shortSide, longSide, firstUid, firstId, selectable);
    AreaTilingSteps(def, area, shortSide, longSide, firstUid, firstId, selectable);
    TileAtPosition(t, r, c);
    ColumnInside(def, area, shortSide, longSide, firstUid, firstId, selectable, c);
    RowInside(def, area, shortSide, longSide, firstUid, firstId, selectable, r);
  }

  /** Column c of an area tiling lies inside the area's width. */
  lemma ColumnInside(def: BuildingTypeDef, area: Area, shortSide: real, longSide: real,
                     firstUid: nat, firstId: int, selectable: bool, c: nat)
    requires def.width > 0.0 && def.height > 0.0 && area.width >= 0.0
    requires shortSide >= 0.0 && longSide >= 0.0
    requires c < AreaCapacity(def, area, shortSide, longSide).cols
    ensures var t := AreaTiling(def, area, shortSide, longSide, firstUid, firstId, selectable);
            area.left <= t.left + c as real * t.stepX
            && t.left + c as real * t.stepX + def.width * SCALE <= area.left + area.width
  {
    var t := AreaTiling(def, area, shortSide, longSide, firstUid, firstId, selectable);
    AreaTilingSteps(def, area, shortSide, longSide, firstUid, firstId, selectable);
    TileInside(area.width, def.width * SCALE, shortSide * SCALE, c, t.stepX);
  }

  /** Row r of an area tiling lies inside the area's height. */
  lemma RowInside(def: BuildingTypeDef, area: Area, shortSide: real, longSide: real,
                  firstUid: nat, firstId: int, selectable: bool, r: nat)
    requires def.width > 0.0 && def.height > 0.0 && area.height >= 0.0
    requires shortSide >= 0.0 && longSide >= 0.0
    requires r < AreaCapacity(def, area, shortSide, longSide).rows
    ensures var t := AreaTiling(def, area, shortSide, longSide, firstUid, firstId, selectable);
            area.top <= t.top + r as real * t.stepY
            && t.top + r as real * t.stepY + def.height * SCALE <= area.top + area.height
  {
    var t := AreaTiling(def, area, shortSide, longSide, firstUid, firstId, selectable);
    AreaTilingSteps(def, area, shortSide, longSide, firstUid, firstId, selectable);
    TileInside(area.height, def.height * SCALE, longSide * SCALE, r, t.stepY);
  }

  /** The origin, the steps and the counts of an area tiling. */
  lemma AreaTilingSteps(def: BuildingTypeDef, area: Area, shortSide: real, longSide: real,
                        firstUid: nat, firstId: int, selectable: bool)
    requires def.width > 0.0 && def.height > 0.0 && shortSide >= 0.0 && longSide >= 0.0
    ensures var t := AreaTiling(def, area, shortSide, longSide, firstUid, firstId, selectable);
            var cap := AreaCapacity(def, area, shortSide, longSide);
            var bw := def.width * SCALE;
            var bh := def.height * SCALE;
            t.def == def && t.left == area.left && t.top == area.top
            && cap.cols == FitCount(area.width, bw, shortSide * SCALE)
            && cap.rows == FitCount(area.height, bh, longSide * SCALE)
            && t.stepX == bw + AdjustSpacing(cap.cols, bw, shortSide * SCALE, area.width)
            && t.stepY == bh + AdjustSpacing(cap.rows, bh, longSide * SCALE, area.height)
  {
  }

  /** In a tiling whose steps are at least the footprint size, footprints along a row or a column are apart. */
  lemma TilingApart(t: Tiling, r1: nat, c1: nat, r2: nat, c2: nat)
    requires t.def.width > 0.0 && t.def.height > 0.0
    requires t.stepX >= t.def.width * SCALE && t.stepY >= t.def.height * SCALE
    ensures var a := TileAt(t, r1, c1);
            var b := TileAt(t, r2, c2);
            (r1 == r2 && c1 < c2 ==> a.top == b.top && a.left + a.width <= b.left)
            && (c1 == c2 && r1 < r2 ==> a.left == b.left && a.top + a.height <= b.top)
  {
    TileAtPosition(t, r1, c1);
    TileAtPosition(t, r2, c2);
    var bw := t.def.width * SCALE;
    var bh := t.def.height * SCALE;
    if r1 == r2 && c1 < c2 {
      TilesApart(bw, t.stepX - bw, c1, c2);
    }
    if c1 == c2 && r1 < r2 {
      TilesApart(bh, t.stepY - bh, r1, r2);
    }
  }

  /**
   * Footprints of an area placement in the same row, or in the same column, do not overlap:
   * the earlier one ends where or before the later one starts.
   */
  lemma TilesDoNotOverlap(def: BuildingTypeDef, area: Area, shortSide: real, longSide: real,
                          firstUid: nat, firstId: int, selectable: bool, r1: nat, c1: nat, r2: nat, c2: nat)
    requires def.width > 0.0 && def.height > 0.0 && shortSide >= 0.0 && longSide >= 0.0
    ensures var t := AreaTiling(def, area, shortSide, longSide, firstUid, firstId, selectable);
            var a := TileAt(t, r1, c1);
            var b := TileAt(t, r2, c2);
            (r1 == r2 && c1 < c2 ==> a.top == b.top && a.left + a.width <= b.left)
            && (c1 == c2 && r1 < r2 ==> a.left == b.left && a.top + a.height <= b.top)
  {
    var cap := AreaCapacity(def, area, shortSide, longSide);
    AdjustNotBelowBase(cap.cols, def.width * SCALE, shortSide * SCALE, area.width);
    AdjustNotBelowBase(cap.rows, def.height * SCALE, longSide * SCALE, area.height);
    TilingApart(AreaTiling(def, area, shortSide, longSide, firstUid, firstId, selectable), r1, c1, r2, c2);
  }

  /** What `updateGridInfo` writes into the info panel. */
  datatype GridInfo = GridInfo(capacity: Capacity, widthMetres: real, heightMetres: real, typeName: string)

  /**
   * The state of js/building.js, with the canvas it places buildings on (`window.canvas`).
   * `shortSide` and `longSide` are `spacingState`, in metres.
   */
  class SiteMapBuilding {
    const canvas: Canvas
    var selectedBuildingType: Option<SelectedType>
    var buildingCount: int
    var shortSide: real
    var longSide: real

    /** The canvas is consistent, the spacing is not negative and a selected type is in the catalogue. */
    ghost predicate Valid()
      reads this, canvas
    {
      canvas.Valid() && shortSide >= 0.0 && longSide >= 0.0
      && (selectedBuildingType.Some? ==> IsTypeKey(selectedBuildingType.value.typeId))
    }

    /** The module's initial state: nothing selected, counter 0, default spacing. */
    constructor (c: Canvas)
      requires c.Valid()
      ensures Valid() && canvas == c
      ensures selectedBuildingType == None && buildingCount == 0
      ensures shortSide == DEFAULT_SHORT_SIDE && longSide == DEFAULT_LONG_SIDE
    {
      canvas := c;
      selectedBuildingType := None;
      buildingCount := 0;
      shortSide := DEFAULT_SHORT_SIDE;
      longSide := DEFAULT_LONG_SIDE;
    }

    /**
     * `createBuilding`: the counter goes up first, so an unknown type returns null and still
     * uses up an id; a known type gives a new group whose `buildingId` is the new counter.
     * `currentMode` is `window.currentMode`, which decides whether the group is selectable.
     */
    method CreateBuilding(x: real, y: real, key: string, rotation: real, currentMode: Mode)
      returns (b: Option<SceneObj>)
      requires Valid()
      modifies this`buildingCount, canvas`nextUid
      ensures Valid() && buildingCount == old(buildingCount) + 1
      ensures b.None? <==> !IsTypeKey(key)
      ensures b.None? ==> canvas.nextUid == old(canvas.nextUid)
      ensures b.Some? ==>
                canvas.nextUid == old(canvas.nextUid) + 1
                && b.value == Footprint(LookupType(key).value, x, y, rotation, old(canvas.nextUid),
                                        buildingCount, currentMode == Select)
                && b.value.uid !in Uids(canvas.objects)
    {
      buildingCount := buildingCount + 1;
      var def := LookupType(key);
      if def.None? {
        return None;
      }
      var u := canvas.NewUid();
      b := Some(Footprint(def.value, x, y, rotation, u, buildingCount, currentMode == Select));
    }

    /** `placeBuilding`: one building of the selected type at the grid point nearest (x, y). */
    method PlaceBuilding(x: real, y: real, currentMode: Mode) returns (st: Status)
      requires Valid()
      modifies this`buildingCount, canvas`objects, canvas`nextUid
      ensures Valid()
      ensures selectedBuildingType.None? ==>
                st == SelectTypeFirst && buildingCount == old(buildingCount)
                && canvas.objects == old(canvas.objects) && canvas.nextUid == old(canvas.nextUid)
      ensures selectedBuildingType.Some? ==>
                var key := selectedBuildingType.value.typeId;
                var p := SnapCoordinatesToGrid(x, y);
                st == Placed(key) && buildingCount == old(buildingCount) + 1
                && canvas.nextUid == old(canvas.nextUid) + 1
                && canvas.objects == old(canvas.objects)
                   + [Footprint(LookupType(key).value, p.x, p.y, 0.0, old(canvas.nextUid), buildingCount,
                                currentMode == Select)]
    {
      if selectedBuildingType.None? {
        return SelectTypeFirst;
      }
      var key := selectedBuildingType.value.typeId;
      var p := SnapCoordinatesToGrid(x, y);
      var building := CreateBuilding(p.x, p.y, key, 0.0, currentMode);
      if building.Some? {
        canvas.Add(building.value);
      }
      st := Placed(key);
    }

    /**
     * `placeMultipleBuildings`: fill `area` with as many buildings of the selected type as the
     * capacity formula allows, spreading the slack over the spacing, row by row.
     */
    method PlaceMultipleBuildings(area: Area, currentMode: Mode) returns (st: Status)
      requires Valid()
      modifies this`buildingCount, canvas`objects, canvas`nextUid
      ensures Valid()
      ensures selectedBuildingType.None? ==>
                st == SelectTypeFirst && buildingCount == old(buildingCount)
                && canvas.objects == old(canvas.objects) && canvas.nextUid == old(canvas.nextUid)
      ensures selectedBuildingType.Some? ==>
                var def := LookupType(selectedBuildingType.value.typeId).value;
                var cap := AreaCapacity(def, area, shortSide, longSide);
                if cap.cols < 1 || cap.rows < 1 then
                  st == AreaTooSmall && buildingCount == old(buildingCount)
                  && canvas.objects == old(canvas.objects) && canvas.nextUid == old(canvas.nextUid)
                else
                  st == PlacedMany(cap.cols * cap.rows)
                  && buildingCount == old(buildingCount) + cap.cols * cap.rows
                  && canvas.nextUid == old(canvas.nextUid) + cap.cols * cap.rows
                  && canvas.objects == old(canvas.objects)
                     + Tiles(AreaTiling(def, area, shortSide, longSide, old(canvas.nextUid), old(buildingCount),
                                        currentMode == Select), cap.rows)
    {
      if selectedBuildingType.None? {
        return SelectTypeFirst;
      }
      st := PlaceInArea(area, currentMode);
    }

    /** `placeMultipleBuildings` once a type is selected. */
    method PlaceInArea(area: Area, currentMode: Mode) returns (st: Status)
      requires Valid() && selectedBuildingType.Some?
      modifies this`buildingCount, canvas`objects, canvas`nextUid
      ensures Valid()
      ensures var def := LookupType(selectedBuildingType.value.typeId).value;
              var cap := AreaCapacity(def, area, shortSide, longSide);
              if cap.cols < 1 || cap.rows < 1 then
                st == AreaTooSmall && buildingCount == old(buildingCount)
                && canvas.objects == old(canvas.objects) && canvas.nextUid == old(canvas.nextUid)
              else
                st == PlacedMany(cap.cols * cap.rows)
                && buildingCount == old(buildingCount) + cap.cols * cap.rows
                && canvas.nextUid == old(canvas.nextUid) + cap.cols * cap.rows
                && canvas.objects == old(canvas.objects)
                   + Tiles(AreaTiling(def, area, shortSide, longSide, old(canvas.nextUid), old(buildingCount),
                                      currentMode == Select), cap.rows)
    {
      var key := selectedBuildingType.value.typeId;
      var def := LookupType(key).value;
      // the capacity, then the spacing widened by the leftover, as AreaTiling lays them out
      var capacity := AreaCapacity(def, area, shortSide, longSide);
      if capacity.cols < 1 || capacity.rows < 1 {
        return AreaTooSmall;
      }
      var t := AreaTiling(def, area, shortSide, longSide, canvas.nextUid, buildingCount, currentMode == Select);
      var count := PlaceTiles(t, key, capacity.rows, currentMode);
      st := PlacedMany(count);
    }

    /**
     * The outer loop of `placeMultipleBuildings`: `rows` rows of `t.cols` buildings of type `key`,
     * footprint (r, c) at (left + c * stepX, top + r * stepY), each added to the canvas as it is made.
     */
    method PlaceTiles(t: Tiling, key: string, rows: nat, currentMode: Mode) returns (count: int)
      requires Valid() && IsTypeKey(key) && t.def == LookupType(key).value
      requires t.selectable == (currentMode == Select)
      requires t.firstUid == canvas.nextUid && t.firstId == buildingCount
      modifies this`buildingCount, canvas`objects, canvas`nextUid
      ensures Valid() && count == rows * t.cols
      ensures buildingCount == old(buildingCount) + count
      ensures canvas.nextUid == old(canvas.nextUid) + count
      ensures canvas.objects == old(canvas.objects) + Tiles(t, rows)
    {
      count := 0;
      var row := 0;
      while row < rows
        invariant 0 <= row <= rows && count == row * t.cols
        invariant Valid()
        invariant canvas.nextUid == old(canvas.nextUid) + count
        invariant buildingCount == old(buildingCount) + count
        invariant canvas.objects == old(canvas.objects) + Tiles(t, row)
      {
        PlaceRow(t, key, row, currentMode);
        assert Tiles(t, row + 1) == Tiles(t, row) + TileRow(t, row, t.cols);
        assert old(canvas.objects) + Tiles(t, row) + TileRow(t, row, t.cols)
               == old(canvas.objects) + (Tiles(t, row) + TileRow(t, row, t.cols));
        count := count + t.cols;
        row := row + 1;
      }
    }

    /** The inner loop of `placeMultipleBuildings`: row `row` of the tiling, left to right. */
    method PlaceRow(t: Tiling, key: string, row: nat, currentMode: Mode)
      requires Valid() && IsTypeKey(key) && t.def == LookupType(key).value
      requires t.selectable == (currentMode == Select)
      requires canvas.nextUid == t.firstUid + row * t.cols && buildingCount == t.firstId + row * t.cols
      modifies this`buildingCount, canvas`objects, canvas`nextUid
      ensures Valid()
      ensures canvas.nextUid == old(canvas.nextUid) + t.cols && buildingCount == old(buildingCount) + t.cols
      ensures canvas.objects == old(canvas.objects) + TileRow(t, row, t.cols)
    {
      var col := 0;
      while col < t.cols
        invariant 0 <= col <= t.cols
        invariant Valid()
        invariant canvas.nextUid == old(canvas.nextUid) + col
        invariant buildingCount == old(buildingCount) + col
        invariant canvas.objects == old(canvas.objects) + TileRow(t, row, col)
      {
        var x := t.left + col as real * t.stepX;
        var y := t.top + row as real * t.stepY;
        ghost var u := canvas.nextUid;
        var building := CreateBuilding(x, y, key, 0.0, currentMode);
        TileAtIs(t, row, col, x, y, u, buildingCount);
        TileRowSnoc(t, row, col);
        canvas.Add(building.value);
        col := col + 1;
      }
    }
    /** `updateGridInfo`: nothing without a selected type, else the capacity of a width x height area. */
    function GridInfoFor(width: real, height: real): (r: Option<GridInfo>)
      requires Valid()
      reads this, canvas
      ensures r.None? <==> selectedBuildingType.None?
      ensures r.Some? ==>
                var def := LookupType(selectedBuildingType.value.typeId).value;
                r.value.capacity == AreaCapacity(def, Area.Area(0.0, 0.0, width, height), shortSide, longSide)
                && r.value.widthMetres * SCALE == width && r.value.heightMetres * SCALE == height
                && r.value.typeName == def.name
    {
      if selectedBuildingType.None? then None
      else
        var def := LookupType(selectedBuildingType.value.typeId).value;
        Some(GridInfo(CalculatePlacementCapacity(width, height, def.width * SCALE, def.height * SCALE,
                                                 shortSide * SCALE, longSide * SCALE),
                      width / SCALE, height / SCALE, def.name))
    }

    /** `setSelectedBuildingType`: a catalogue type replaces the selection; anything else keeps it. */
    method SetSelectedBuildingType(key: string) returns (r: Option<SelectedType>)
      requires Valid()
      modifies this`selectedBuildingType
      ensures Valid() && r == selectedBuildingType
      ensures IsTypeKey(key) ==>
                var def := LookupType(key).value;
                selectedBuildingType == Some(SelectedType(key, def.width * SCALE, def.height * SCALE, def.color))
      ensures !IsTypeKey(key) ==> selectedBuildingType == old(selectedBuildingType)
    {
      var def := LookupType(key);
      if def.Some? {
        selectedBuildingType := Some(SelectedType(def.value.typeId, def.value.width * SCALE,
                                                  def.value.height * SCALE, def.value.color));
      }
      r := selectedBuildingType;
    }

    /** `setSpacing`: an absent (undefined) argument leaves its side as it was. */
    method SetSpacing(newShortSide: Option<real>, newLongSide: Option<real>)
      requires Valid()
      requires newShortSide.Some? ==> newShortSide.value >= 0.0
      requires newLongSide.Some? ==> newLongSide.value >= 0.0
      modifies this`shortSide, this`longSide
      ensures Valid()
      ensures shortSide == if newShortSide.Some? then newShortSide.value else old(shortSide)
      ensures longSide == if newLongSide.Some? then newLongSide.value else old(longSide)
    {
      if newShortSide.Some? {
        shortSide := newShortSide.value;
      }
      if newLongSide.Some? {
        longSide := newLongSide.value;
      }
    }

    /** `resetBuildingCount`. */
    method ResetBuildingCount()
      requires Valid()
      modifies this`buildingCount
      ensures Valid() && buildingCount == 0
    {
      buildingCount := 0;
    }
  }
}
