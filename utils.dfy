/**
 * The scene-list operations of js/utils.js: deleting the selection, clearing all buildings,
 * rotating a building, and the data `exportJSON` and `exportPDF` produce. The pure grid and
 * capacity helpers of the same file are in module Grid.
 */
module Utils {
  import opened Common
  import opened Config
  import opened Grid
  import opened Scene
  import opened Building
  import opened CanvasLayer

  /**
   * The test `deleteSelected` and `clearAll` apply: a building (its `buildingType` is set) that
   * is not the background image and is not excluded from export. `bg` is `backgroundImage`.
   */
  function Removable(bg: Option<nat>): SceneObj -> bool {
    (o: SceneObj) => (bg.None? || o.uid != bg.value) && !o.excludeFromExport && HasBuildingType(o)
  }

  /** The objects `clearAll` keeps. */
  function Kept(bg: Option<nat>): SceneObj -> bool {
    (o: SceneObj) => !Removable(bg)(o)
  }

  /** The objects `deleteSelected` keeps when the identities `us` are selected. */
  function KeptUnlessSelected(us: seq<nat>, bg: Option<nat>): SceneObj -> bool {
    (o: SceneObj) => !(o.uid in us && Removable(bg)(o))
  }

  /** Nothing but removable buildings is ever deleted, and every selected one is. */
  lemma DeletionKeepsNonBuildings(s: seq<SceneObj>, us: seq<nat>, bg: Option<nat>)
    ensures forall o :: o in Filter(s, KeptUnlessSelected(us, bg)) <==>
                          o in s && !(o.uid in us && Removable(bg)(o))
    ensures forall o :: o in Filter(s, Kept(bg)) <==> o in s && !Removable(bg)(o)
  {
    FilterMembers(s, KeptUnlessSelected(us, bg));
    FilterMembers(s, Kept(bg));
  }

  /** One more selected identity handled the way `deleteSelected`'s `forEach` handles it. */
  lemma DeleteStep(s: seq<SceneObj>, p: seq<nat>, u: nat, bg: Option<nat>)
    requires UniqueUids(s)
    ensures var t := Filter(s, KeptUnlessSelected(p, bg));
            Filter(s, KeptUnlessSelected(p + [u], bg))
            == match Find(t, u)
               case Some(o) => if Removable(bg)(o) then Without(t, u) else t
               case None => t
  {
    var t := Filter(s, KeptUnlessSelected(p, bg));
    var single := KeptUnlessSelected([u], bg);
    FilterCompose(s, KeptUnlessSelected(p, bg), single, KeptUnlessSelected(p + [u], bg));
    FilterUnique(s, KeptUnlessSelected(p, bg));
    match Find(t, u)
    case Some(o) => {
      if Removable(bg)(o) {
        forall x | x in t ensures single(x) == OtherThan(u)(x) {
          if x.uid == u {
            UidDetermines(t, x, o);
          }
        }
        FilterExt(t, single, OtherThan(u));
      } else {
        forall i | 0 <= i < |t| ensures single(t[i]) {
          if t[i].uid == u {
            UidDetermines(t, t[i], o);
          }
        }
        FilterKeepsAll(t, single);
      }
    }
    case None => {
      forall i | 0 <= i < |t| ensures single(t[i]) {
        assert Uids(t)[i] == t[i].uid;
      }
      FilterKeepsAll(t, single);
    }
  }

  /**
   * `deleteSelected`: with nothing selected it only reports so; otherwise every selected
   * removable building leaves the canvas, everything else stays in order, and the selection
   * is discarded. The result says whether anything was selected.
   */
  method DeleteSelected(c: Canvas, bg: Option<nat>) returns (anySelected: bool)
    requires c.Valid()
    modifies c`objects, c`active
    ensures c.Valid() && anySelected == (old(c.active) != [])
    ensures !anySelected ==> c.objects == old(c.objects) && c.active == old(c.active)
    ensures anySelected ==>
              c.objects == Filter(old(c.objects), KeptUnlessSelected(old(c.active), bg)) && c.active == []
  {
    var activeObjects := c.active;
    if |activeObjects| == 0 {
      return false;
    }
    ghost var s := c.objects;
    FilterKeepsAll(c.objects, KeptUnlessSelected([], bg));
    for i := 0 to |activeObjects|
      invariant c.Valid() && c.objects == Filter(s, KeptUnlessSelected(activeObjects[..i], bg))
    {
      DeleteOne(c, bg, s, activeObjects, i);
    }
    assert activeObjects[..|activeObjects|] == activeObjects;
    c.DiscardActiveObject();
    anySelected := true;
  }

  /** One iteration of `deleteSelected`'s `forEach`: the selected object i goes if it is removable. */
  method DeleteOne(c: Canvas, bg: Option<nat>, ghost s: seq<SceneObj>, activeObjects: seq<nat>, i: nat)
    requires c.Valid() && UniqueUids(s) && i < |activeObjects|
    requires c.objects == Filter(s, KeptUnlessSelected(activeObjects[..i], bg))
    modifies c`objects, c`active
    ensures c.Valid() && c.objects == Filter(s, KeptUnlessSelected(activeObjects[..i + 1], bg))
    ensures c.active == SelectionAfter(old(c.active), old(c.objects), c.objects)
  {
    DeselectStep(c.active, c.objects, c.objects, activeObjects[i]);
    DeleteStep(s, activeObjects[..i], activeObjects[i], bg);
    assert activeObjects[..i + 1] == activeObjects[..i] + [activeObjects[i]];
    var obj := Find(c.objects, activeObjects[i]);
    if obj.Some? && Removable(bg)(obj.value) {
      c.Remove(activeObjects[i]);
    }
  }

  /** One more scene object visited by `clearAll`'s `forEach`. */
  lemma ClearStep(objs: seq<SceneObj>, i: nat, bg: Option<nat>)
    requires i < |objs| && UniqueUids(Filter(objs[..i], Kept(bg)) + objs[i..])
    ensures var cur := Filter(objs[..i], Kept(bg)) + objs[i..];
            Filter(objs[..i + 1], Kept(bg)) + objs[i + 1..]
            == (if Removable(bg)(objs[i]) then Without(cur, objs[i].uid) else cur)
    ensures |Filter(objs[..i + 1], Removable(bg))|
            == |Filter(objs[..i], Removable(bg))| + (if Removable(bg)(objs[i]) then 1 else 0)
  {
    assert objs[..i + 1] == objs[..i] + [objs[i]];
    FilterAppend(objs[..i], [objs[i]], Kept(bg));
    FilterAppend(objs[..i], [objs[i]], Removable(bg));
    var kept := Filter(objs[..i], Kept(bg));
    var cur := kept + objs[i..];
    assert objs[i..] == [objs[i]] + objs[i + 1..];
    if Removable(bg)(objs[i]) {
      WithoutAt(cur, |kept|);
      assert cur[..|kept|] == kept && cur[|kept| + 1..] == objs[i + 1..];
    }
  }

  /**
   * `clearAll`: when the user confirms, every removable building leaves the canvas, the
   * rest stay in order, the number reported is the number removed and the building counter
   * is reset; when the user cancels nothing changes. `confirmed` is the answer to `confirm`.
   */
  method ClearAll(b: SiteMapBuilding, bg: Option<nat>, confirmed: bool) returns (removedCount: Option<int>)
    requires b.Valid()
    modifies b.canvas`objects, b.canvas`active, b`buildingCount
    ensures b.Valid()
    ensures !confirmed ==>
              removedCount.None? && b.canvas.objects == old(b.canvas.objects)
              && b.canvas.active == old(b.canvas.active) && b.buildingCount == old(b.buildingCount)
    ensures confirmed ==>
              b.canvas.objects == Filter(old(b.canvas.objects), Kept(bg))
              && b.canvas.active == SelectionAfter(old(b.canvas.active), old(b.canvas.objects), b.canvas.objects)
              && removedCount == Some(|Filter(old(b.canvas.objects), Removable(bg))|)
              && b.buildingCount == 0
  {
    if !confirmed {
      return None;
    }
    var c := b.canvas;
    var objs := c.objects;
    var count := 0;
    ghost var a0 := c.active;
    for i := 0 to |objs|
      invariant b.Valid() && c == b.canvas
      invariant c.objects == Filter(objs[..i], Kept(bg)) + objs[i..]
      invariant count == |Filter(objs[..i], Removable(bg))|
      invariant c.active == SelectionAfter(a0, objs, c.objects)
      invariant |a0| == 1 && a0[0] in Uids(c.objects) ==> a0[0] in Uids(objs)
    {
      var removed := ClearOne(c, bg, objs, i, a0);
      if removed {
        count := count + 1;
      }
    }
    assert objs[..|objs|] == objs;
    b.ResetBuildingCount();
    removedCount := Some(count);
  }

  /** One iteration of `clearAll`'s `forEach`: the visited object goes if it is removable. */
  method ClearOne(c: Canvas, bg: Option<nat>, objs: seq<SceneObj>, i: nat, ghost a0: seq<nat>)
    returns (removed: bool)
    requires c.Valid() && i < |objs|
    requires c.objects == Filter(objs[..i], Kept(bg)) + objs[i..]
    requires c.active == SelectionAfter(a0, objs, c.objects)
    requires |a0| == 1 && a0[0] in Uids(c.objects) ==> a0[0] in Uids(objs)
    modifies c`objects, c`active
    ensures c.Valid() && removed == Removable(bg)(objs[i])
    ensures c.objects == Filter(objs[..i + 1], Kept(bg)) + objs[i + 1..]
    ensures |Filter(objs[..i + 1], Removable(bg))|
            == |Filter(objs[..i], Removable(bg))| + (if removed then 1 else 0)
    ensures c.active == SelectionAfter(a0, objs, c.objects)
    ensures |a0| == 1 && a0[0] in Uids(c.objects) ==> a0[0] in Uids(objs)
  {
    ClearStep(objs, i, bg);
    removed := Removable(bg)(objs[i]);
    if removed {
      DeselectStep(a0, objs, c.objects, objs[i].uid);
      c.Remove(objs[i].uid);
    }
  }

  /** JavaScript's `%` on numbers: the quotient is truncated, so the remainder has the dividend's sign. */
  function JsRemainder(x: real, m: real): (r: real)
    requires m > 0.0
    ensures x >= 0.0 ==> 0.0 <= r < m
    ensures x < 0.0 ==> -m < r <= 0.0
    ensures ((x - r) / m).Floor as real == (x - r) / m
  {
    var r := if x >= 0.0 then x - (x / m).Floor as real * m else -(-x - (-x / m).Floor as real * m);
    TruncatedRemainder(x, m, r);
    r
  }

  /** The truncating remainder is the floor remainder of |x|, carrying the sign of x. */
  lemma TruncatedRemainder(x: real, m: real, r: real)
    requires m > 0.0
    requires r == if x >= 0.0 then x - (x / m).Floor as real * m else -(-x - (-x / m).Floor as real * m)
    ensures x >= 0.0 ==> 0.0 <= r < m
    ensures x < 0.0 ==> -m < r <= 0.0
    ensures ((x - r) / m).Floor as real == (x - r) / m
  {
    if x >= 0.0 {
      FloorRemainder(x, m);
    } else {
      NegativeRemainder(x, m);
    }
  }

  /** For negative x, the truncating remainder is minus the floor remainder of -x. */
  lemma NegativeRemainder(x: real, m: real)
    requires m > 0.0 && x < 0.0
    ensures var r := -(-x - (-x / m).Floor as real * m);
            -m < r <= 0.0 && ((x - r) / m).Floor as real == (x - r) / m
  {
    FloorRemainder(-x, m);
    var k := (-x / m).Floor;
    var t := k as real;
    var r := -(-x - t * m);
    assert r == x + t * m;
    assert (x - r) / m == (-k) as real;
  }

  /** The remainder of a non-negative x after taking out whole multiples of m. */
  lemma FloorRemainder(x: real, m: real)
    requires m > 0.0 && x >= 0.0
    ensures 0.0 <= x - (x / m).Floor as real * m
    ensures x - (x / m).Floor as real * m < m
    ensures (x - (x - (x / m).Floor as real * m)) / m == (x / m).Floor as real
    ensures (-x - (-x + (x / m).Floor as real * m)) / m == -(x / m).Floor as real
  {
    var q := x / m;
    var t := q.Floor as real;
    assert q * m == x;
    assert t <= q < t + 1.0;
    MulMonotone(t, q, m);
    MulMonotone(q, t + 1.0, m);
    assert (t + 1.0) * m == t * m + m;
    calc {
      x;
      == q * m;
      < (t + 1.0) * m;
      == t * m + m;
    }
    assert t * m / m == t;
    assert x - (x - t * m) == t * m;
    assert -x - (-x + t * m) == -t * m;
    assert -t * m / m == -t;
  }

  lemma MulMonotone(a: real, b: real, m: real)
    requires a <= b && m > 0.0
    ensures a * m <= b * m && (a < b ==> a * m < b * m)
  {
  }

  /** The angle `rotateSelected` gives: a quarter turn more, reduced by JavaScript's `% 360`. */
  function RotatedAngle(angle: real): real {
    JsRemainder(angle + 90.0, 360.0)
  }

  /** From an angle in [0, 360), a quarter turn stays in [0, 360), wrapping at 360. */
  lemma QuarterTurn(angle: real)
    requires 0.0 <= angle < 360.0
    ensures RotatedAngle(angle) == if angle + 90.0 < 360.0 then angle + 90.0 else angle - 270.0
  {
    var x := angle + 90.0;
    if x < 360.0 {
      assert (x / 360.0).Floor == 0;
    } else {
      assert (x / 360.0).Floor == 1;
    }
  }

  /** Four quarter turns bring a building back to the angle it started from. */
  lemma FourQuarterTurns(angle: real)
    requires 0.0 <= angle < 360.0
    ensures RotatedAngle(RotatedAngle(RotatedAngle(RotatedAngle(angle)))) == angle
  {
    QuarterTurn(angle);
    var a1 := RotatedAngle(angle);
    QuarterTurn(a1);
    var a2 := RotatedAngle(a1);
    QuarterTurn(a2);
    var a3 := RotatedAngle(a2);
    QuarterTurn(a3);
  }

  /**
   * `canvas.getActiveObject()`: the one selected object; a multiple selection is an
   * `ActiveSelection`, which has no `buildingType`, so it counts as no building here.
   */
  function ActiveObject(objects: seq<SceneObj>, active: seq<nat>): Option<SceneObj> {
    if |active| == 1 then Find(objects, active[0]) else None
  }

  /**
   * `rotateSelected`: the active object turns a quarter, exactly when it is a building;
   * otherwise nothing changes. The result says whether a building was rotated.
   */
  method RotateSelected(c: Canvas) returns (rotated: bool)
    requires c.Valid()
    modifies c`objects
    ensures c.Valid()
    ensures var a := ActiveObject(old(c.objects), c.active);
            rotated <==> a.Some? && HasBuildingType(a.value)
    ensures rotated ==>
              var o := ActiveObject(old(c.objects), c.active).value;
              c.objects == Updated(old(c.objects), o.(angle := RotatedAngle(o.angle)))
    ensures !rotated ==> c.objects == old(c.objects)
  {
    var activeObject := ActiveObject(c.objects, c.active);
    if activeObject.Some? && HasBuildingType(activeObject.value) {
      var o := activeObject.value;
      c.SetObject(o.(angle := RotatedAngle(o.angle)));
      rotated := true;
    } else {
      rotated := false;
    }
  }

  /** The objects `exportJSON` and `exportPDF` list: exported, not the background, buildings. */
  function Exportable(bg: Option<nat>): SceneObj -> bool {
    (o: SceneObj) =>
      !o.excludeFromExport && (bg.None? || o.uid != bg.value) && !o.isBackground && HasBuildingType(o)
  }

  /** One entry of `exportJSON`'s output: position in metres, angle, and grid indices. */
  datatype BuildingRecord = BuildingRecord(buildingType: string, x: real, y: real, rotation: real,
                                           gridX: int, gridY: int)

  function RecordOf(o: SceneObj): BuildingRecord {
    BuildingRecord(o.buildingType, o.left / SCALE, o.top / SCALE, o.angle,
                   Round(o.left / GridSize()), Round(o.top / GridSize()))
  }

  /**
   * `exportJSON`: nothing when there is no building to list; otherwise one record per listed
   * building, in scene order, with the position in metres and the nearest grid indices.
   */
  function ExportJson(s: seq<SceneObj>, bg: Option<nat>): (r: Option<seq<BuildingRecord>>)
    ensures r.None? <==> Filter(s, Exportable(bg)) == []
    ensures r.Some? ==>
              var listed := Filter(s, Exportable(bg));
              |r.value| == |listed|
              && forall i :: 0 <= i < |listed| ==>
                   var o := listed[i];
                   var rec := r.value[i];
                   rec.buildingType == o.buildingType && rec.rotation == o.angle
                   && rec.x * SCALE == o.left && rec.y * SCALE == o.top
                   && rec.gridX as real * GridSize() == SnapToGrid(o.left)
                   && rec.gridY as real * GridSize() == SnapToGrid(o.top)
  {
    var listed := Filter(s, Exportable(bg));
    if listed == [] then None
    else Some(seq(|listed|, i requires 0 <= i < |listed| => RecordOf(listed[i])))
  }

  /** A building standing on grid point (kx, ky) is exported with grid indices (kx, ky). */
  lemma ExportOfGridPoint(o: SceneObj, kx: int, ky: int)
    requires o.left == kx as real * GridSize() && o.top == ky as real * GridSize()
    ensures RecordOf(o).gridX == kx && RecordOf(o).gridY == ky
  {
    assert o.left / GridSize() == kx as real;
    assert o.top / GridSize() == ky as real;
    RoundOfInteger(kx);
    RoundOfInteger(ky);
  }

  /** A building placed by a click is exported with the grid indices of the point it snapped to. */
  lemma ExportOfPlaced(o: SceneObj, x: real, y: real)
    requires o.left == SnapToGrid(x) && o.top == SnapToGrid(y)
    ensures RecordOf(o).gridX == Round(x / GridSize()) && RecordOf(o).gridY == Round(y / GridSize())
  {
    GridIndexOfSnapped(x);
    GridIndexOfSnapped(y);
  }

  /** The scene with every object whose identity is in `us` made invisible. */
  function Hidden(s: seq<SceneObj>, us: seq<nat>): (r: seq<SceneObj>)
    ensures |r| == |s| && Uids(r) == Uids(s)
  {
    seq(|s|, i requires 0 <= i < |s| => if s[i].uid in us then s[i].(visible := false) else s[i])
  }

  lemma WholePrefix(s: seq<nat>)
    ensures s[..|s|] == s
  {
  }

  /** Hiding nothing changes nothing. */
  lemma HiddenNone(s: seq<SceneObj>)
    ensures Hidden(s, []) == s
  {
  }

  /** In a scene with unique identities, the object with identity u sits at one index only. */
  lemma FindSameUids(s: seq<SceneObj>, t: seq<SceneObj>, u: nat)
    requires UniqueUids(s) && Uids(t) == Uids(s)
    ensures IndexOf(t, u) == IndexOf(s, u)
  {
    var i := IndexOf(s, u);
    var j := IndexOf(t, u);
    if i >= 0 && j >= 0 {
      assert Uids(s)[j] == u;
      assert !(i < j) && !(j < i);
    }
  }

  /** One more grid line hidden by `exportPDF`'s first `forEach`; it is found as it was. */
  lemma HideStep(s: seq<SceneObj>, p: seq<nat>, u: nat)
    requires UniqueUids(s) && u !in p
    ensures var t := Hidden(s, p);
            Find(t, u) == Find(s, u)
            && Hidden(s, p + [u]) == match Find(t, u)
                                     case Some(o) => Updated(t, o.(visible := false))
                                     case None => t
  {
    var t := Hidden(s, p);
    FindSameUids(s, t, u);
    match Find(t, u)
    case Some(o) => {
      var i := IndexOf(t, u);
      forall k | 0 <= k < |s| ensures Hidden(s, p + [u])[k] == Updated(t, o.(visible := false))[k] {
        if s[k].uid == u {
          assert Uids(s)[k] == u;
          assert !(k < i) && !(i < k);
        }
      }
    }
    case None => {
      forall k | 0 <= k < |s| ensures Hidden(s, p + [u])[k] == t[k] {
        assert Uids(t)[k] != u;
      }
    }
  }

  /** `HideStep` for line i of a list of distinct identities. */
  lemma HideStepAt(s: seq<SceneObj>, us: seq<nat>, i: nat)
    requires UniqueUids(s) && Distinct(us) && i < |us|
    ensures var t := Hidden(s, us[..i]);
            Find(t, us[i]) == Find(s, us[i])
            && Hidden(s, us[..i + 1]) == match Find(t, us[i])
                                         case Some(o) => Updated(t, o.(visible := false))
                                         case None => t
  {
    assert us[i] !in us[..i];
    assert us[..i + 1] == us[..i] + [us[i]];
    HideStep(s, us[..i], us[i]);
  }

  /** The flag `exportPDF` saves for identity u: its `visible` in scene s (false when absent). */
  function SavedFlag(s: seq<SceneObj>, u: nat): bool {
    match Find(s, u)
    case Some(o) => o.visible
    case None => false
  }

  /** The flags saved for the identities `us`, in order. */
  function SavedFlags(s: seq<SceneObj>, us: seq<nat>): (r: seq<bool>)
    ensures |r| == |us|
  {
    seq(|us|, k requires 0 <= k < |us| => SavedFlag(s, us[k]))
  }

  lemma SavedFlagsSnoc(s: seq<SceneObj>, us: seq<nat>, i: nat)
    requires i < |us|
    ensures SavedFlags(s, us[..i + 1]) == SavedFlags(s, us[..i]) + [SavedFlag(s, us[i])]
  {
  }

  /** One more grid line given back its saved flag by `exportPDF`'s second `forEach`. */
  lemma RestoreStep(s: seq<SceneObj>, us: seq<nat>, i: nat, v: bool)
    requires UniqueUids(s) && Distinct(us) && i < |us| && v == SavedFlag(s, us[i])
    ensures var t := Hidden(s, us[i..]);
            Hidden(s, us[i + 1..]) == match Find(t, us[i])
                                      case Some(o) => Updated(t, o.(visible := v))
                                      case None => t
  {
    var u := us[i];
    assert us[i..] == [u] + us[i + 1..];
    assert u !in us[i + 1..] by {
      forall k | i + 1 <= k < |us| ensures us[k] != u { }
    }
    RestoreOne(s, us[i..], us[i + 1..], u);
  }

  /** Taking identity u off the hidden list gives its object back its saved flag. */
  lemma RestoreOne(s: seq<SceneObj>, a: seq<nat>, b: seq<nat>, u: nat)
    requires UniqueUids(s) && a == [u] + b && u !in b
    ensures var t := Hidden(s, a);
            Hidden(s, b) == match Find(t, u)
                            case Some(o) => Updated(t, o.(visible := SavedFlag(s, u)))
                            case None => t
  {
    var t := Hidden(s, a);
    FindSameUids(s, t, u);
    var j := IndexOf(t, u);
    if j >= 0 {
      RestoreFound(s, a, b, u, j);
    } else {
      RestoreAbsent(s, a, b, u);
    }
  }

  lemma RestoreFound(s: seq<SceneObj>, a: seq<nat>, b: seq<nat>, u: nat, j: nat)
    requires UniqueUids(s) && a == [u] + b && u !in b
    requires j < |s| && IndexOf(s, u) == j && IndexOf(Hidden(s, a), u) == j
    ensures var t := Hidden(s, a);
            Find(t, u) == Some(t[j])
            && Hidden(s, b) == Updated(t, t[j].(visible := SavedFlag(s, u)))
  {
    var t := Hidden(s, a);
    var r := Hidden(s, b);
    assert t[j] == s[j].(visible := false);
    assert t[j].(visible := SavedFlag(s, u)) == s[j];
    UpdatedAt(t, j, s[j]);
    forall k | 0 <= k < |s| ensures r[k] == t[j := s[j]][k] {
      if k != j {
        assert s[k].uid != u;
      }
    }
  }

  lemma RestoreAbsent(s: seq<SceneObj>, a: seq<nat>, b: seq<nat>, u: nat)
    requires a == [u] + b && IndexOf(s, u) == -1
    ensures Hidden(s, b) == Hidden(s, a)
  {
    var t := Hidden(s, a);
    var r := Hidden(s, b);
    forall k | 0 <= k < |s| ensures r[k] == t[k] {
      assert s[k].uid != u;
    }
  }

  /** Where `exportPDF` puts the canvas image on the first page, in millimetres. */
  datatype ImagePlacement = ImagePlacement(x: real, y: real, width: real, height: real)

  /** The border `exportPDF` leaves around the image, in millimetres. */
  const IMAGE_MARGIN: real := 10.0

  /** The A4 page jsPDF creates: landscape when the canvas is wider than high. */
  function PageSize(canvasWidth: real, canvasHeight: real): (size: (real, real))
    ensures (canvasWidth > canvasHeight) == (size.0 > size.1)
  {
    if canvasWidth > canvasHeight then (297.0, 210.0) else (210.0, 297.0)
  }

  /**
   * The image fit of `exportPDF`: it keeps the canvas's aspect ratio, is centred on the page,
   * lies on the page, and spans the page minus the margins along one axis.
   */
  function FitImage(canvasWidth: real, canvasHeight: real, pageWidth: real, pageHeight: real): (p: ImagePlacement)
    requires canvasWidth > 0.0 && canvasHeight > 0.0
    requires pageWidth > 2.0 * IMAGE_MARGIN && pageHeight > 2.0 * IMAGE_MARGIN
    ensures p.width * canvasHeight == p.height * canvasWidth
    ensures p.x + p.width / 2.0 == pageWidth / 2.0 && p.y + p.height / 2.0 == pageHeight / 2.0
    ensures 0.0 < p.x && 0.0 < p.y && p.width > 0.0 && p.height > 0.0
    ensures (p.x == IMAGE_MARGIN && p.width == pageWidth - 2.0 * IMAGE_MARGIN)
            || (p.y == IMAGE_MARGIN && p.height == pageHeight - 2.0 * IMAGE_MARGIN)
  {
    var imgAspectRatio := canvasWidth / canvasHeight;
    var pageAspectRatio := pageWidth / pageHeight;
    if imgAspectRatio > pageAspectRatio then
      var imgWidth := pageWidth - 2.0 * IMAGE_MARGIN;
      var imgHeight := imgWidth / imgAspectRatio;
      FitWide(canvasWidth, canvasHeight, pageWidth, pageHeight);
      ImagePlacement(IMAGE_MARGIN, (pageHeight - imgHeight) / 2.0, imgWidth, imgHeight)
    else
      var imgHeight := pageHeight - 2.0 * IMAGE_MARGIN;
      var imgWidth := imgHeight * imgAspectRatio;
      FitTall(canvasWidth, canvasHeight, pageWidth, pageHeight);
      ImagePlacement((pageWidth - imgWidth) / 2.0, IMAGE_MARGIN, imgWidth, imgHeight)
  }

  /** The wide case of the fit: the image height is below the page height. */
  lemma FitWide(cw: real, ch: real, pw: real, ph: real)
    requires cw > 0.0 && ch > 0.0 && pw > 20.0 && ph > 20.0 && cw / ch > pw / ph
    ensures (pw - 20.0) / (cw / ch) < ph && (pw - 20.0) / (cw / ch) * cw == (pw - 20.0) * ch
  {
    var a := cw / ch;
    assert (pw - 20.0) / a < pw / a;
    assert pw / a < pw / (pw / ph);
  }

  /** The tall case of the fit: the image width is below the page width. */
  lemma FitTall(cw: real, ch: real, pw: real, ph: real)
    requires cw > 0.0 && ch > 0.0 && pw > 20.0 && ph > 20.0 && cw / ch <= pw / ph
    ensures (ph - 20.0) * (cw / ch) < pw && (ph - 20.0) * (cw / ch) * ch == (ph - 20.0) * cw
  {
    var a := cw / ch;
    MulMonotone(a, pw / ph, ph - 20.0);
    assert (pw / ph) * (ph - 20.0) < (pw / ph) * ph;
  }

  /**
   * The full 10 mm margin holds on every side when the page's orientation matches the
   * branch taken: the wide branch needs a page at least as high as wide, the other branch a
   * page at least as wide as high.
   */
  lemma FitInsideMargin(cw: real, ch: real, pw: real, ph: real)
    requires cw > 0.0 && ch > 0.0 && pw > 20.0 && ph > 20.0
    requires cw / ch > pw / ph ==> ph >= pw
    requires cw / ch <= pw / ph ==> pw >= ph
    ensures var p := FitImage(cw, ch, pw, ph);
            p.x >= IMAGE_MARGIN && p.y >= IMAGE_MARGIN
            && p.x + p.width <= pw - IMAGE_MARGIN && p.y + p.height <= ph - IMAGE_MARGIN
  {
    if cw / ch > pw / ph {
      WideMargin(cw / ch, pw, ph);
    } else {
      TallMargin(cw / ch, pw, ph);
    }
  }

  /** Wide branch: the height (pw - 20) / a is at most ph - 20 when the page is not wider than high. */
  lemma WideMargin(a: real, pw: real, ph: real)
    requires pw > 20.0 && ph >= pw && a > pw / ph
    ensures (pw - 20.0) / a <= ph - 20.0
  {
    assert pw / ph > 0.0;
    assert (pw - 20.0) / a <= (pw - 20.0) / (pw / ph);
    assert (pw - 20.0) / (pw / ph) == (pw - 20.0) * ph / pw;
    MulMonotone(20.0, ph * 20.0 / pw, 1.0);
    assert (pw - 20.0) * ph / pw == ph - 20.0 * ph / pw;
  }

  /** Tall branch: the width (ph - 20) * a is at most pw - 20 when the page is not higher than wide. */
  lemma TallMargin(a: real, pw: real, ph: real)
    requires ph > 20.0 && pw >= ph && 0.0 < a <= pw / ph
    ensures (ph - 20.0) * a <= pw - 20.0
  {
    MulMonotone(a, pw / ph, ph - 20.0);
    assert (pw / ph) * (ph - 20.0) == pw - 20.0 * pw / ph;
    assert 20.0 * pw / ph >= 20.0;
  }

  /** For the configured 1200 x 850 canvas on its landscape A4 page the margin holds on every side. */
  lemma ConfiguredCanvasFitsMargin()
    ensures var page := PageSize(CANVAS_WIDTH, CANVAS_HEIGHT);
            var p := FitImage(CANVAS_WIDTH, CANVAS_HEIGHT, page.0, page.1);
            page == (297.0, 210.0)
            && p.x >= IMAGE_MARGIN && p.y >= IMAGE_MARGIN
            && p.x + p.width <= page.0 - IMAGE_MARGIN && p.y + p.height <= page.1 - IMAGE_MARGIN
  {
    FitInsideMargin(CANVAS_WIDTH, CANVAS_HEIGHT, 297.0, 210.0);
  }

  /**
   * The orientation condition is needed: a 1200 x 845 canvas is a little wider than a
   * landscape A4 page, takes the wide branch, and its image comes within 10 mm of the top.
   */
  lemma WideCanvasCrossesMargin()
    ensures FitImage(1200.0, 845.0, 297.0, 210.0).y < IMAGE_MARGIN
  {
    assert 1200.0 / 845.0 > 297.0 / 210.0;
  }

  /** The pagination state of the building list: the current page (1 is the image) and `yPos`. */
  datatype Cursor = Cursor(page: nat, y: real)

  /** The list starts on page 2 at `yPos` 40 mm. */
  const LIST_START: Cursor := Cursor(2, 40.0)

  /** After one entry: 10 mm down, and a new page from 20 mm once past 20 mm above the bottom. */
  function Advance(c: Cursor, pageHeight: real): Cursor {
    var y := c.y + 10.0;
    if y > pageHeight - 20.0 then Cursor(c.page + 1, 20.0) else Cursor(c.page, y)
  }

  /** Where entry number n (0-based) is written. */
  function CursorAt(n: nat, pageHeight: real): Cursor {
    if n == 0 then LIST_START else Advance(CursorAt(n - 1, pageHeight), pageHeight)
  }

  /**
   * On a page at least 60 mm high every entry is written between 20 mm from the top and
   * 20 mm from the bottom, on page 2 or later.
   */
  lemma {:induction false} EntriesInsidePage(n: nat, pageHeight: real)
    requires pageHeight >= 60.0
    ensures var c := CursorAt(n, pageHeight);
            20.0 <= c.y <= pageHeight - 20.0 && c.page >= 2
  {
    if n > 0 {
      EntriesInsidePage(n - 1, pageHeight);
    }
  }

  /**
   * Entries come in order: the next one is 10 mm lower on the same page, or at 20 mm at
   * the top of the next page; pages never go back.
   */
  lemma {:induction false} EntriesInOrder(m: nat, n: nat, pageHeight: real)
    requires m <= n
    ensures CursorAt(m, pageHeight).page <= CursorAt(n, pageHeight).page
    ensures var a := CursorAt(n, pageHeight);
            var b := CursorAt(n + 1, pageHeight);
            (b.page == a.page && b.y == a.y + 10.0) || (b.page == a.page + 1 && b.y == 20.0)
  {
    if m < n {
      EntriesInOrder(m, n - 1, pageHeight);
    }
  }

  /** One line of the building list: number, type, position in metres, angle, and where it is written. */
  datatype ListEntry = ListEntry(number: int, buildingType: string, x: real, y: real, angle: real,
                                 page: nat, yPos: real)

  function EntryOf(i: nat, o: SceneObj, c: Cursor): ListEntry {
    ListEntry(i + 1, o.buildingType, o.left / SCALE, o.top / SCALE, o.angle, c.page, c.y)
  }

  /** The building list of `exportPDF`: the listed buildings in scene order, numbered from 1. */
  function ListEntries(listed: seq<SceneObj>, pageHeight: real): (r: seq<ListEntry>)
    ensures |r| == |listed|
    decreases |listed|
  {
    if listed == [] then []
    else
      var n := |listed| - 1;
      ListEntries(listed[..n], pageHeight) + [EntryOf(n, listed[n], CursorAt(n, pageHeight))]
  }

  /** Entry i of the list describes building i: number i + 1, its type, position in metres and angle. */
  lemma {:induction false} ListEntriesAt(listed: seq<SceneObj>, pageHeight: real, i: nat)
    requires i < |listed|
    ensures var e := ListEntries(listed, pageHeight)[i];
            e.number == i + 1 && e.buildingType == listed[i].buildingType && e.angle == listed[i].angle
            && e.x * SCALE == listed[i].left && e.y * SCALE == listed[i].top
            && Cursor(e.page, e.yPos) == CursorAt(i, pageHeight)
  {
    var n := |listed| - 1;
    if i < n {
      ListEntriesAt(listed[..n], pageHeight, i);
      assert listed[..n][i] == listed[i];
    }
  }

  /** Listing one more building appends its entry. */
  lemma ListEntriesSnoc(listed: seq<SceneObj>, i: nat, pageHeight: real)
    requires i < |listed|
    ensures ListEntries(listed[..i + 1], pageHeight)
            == ListEntries(listed[..i], pageHeight) + [EntryOf(i, listed[i], CursorAt(i, pageHeight))]
  {
    assert listed[..i + 1][..i] == listed[..i];
  }

  /** The number of pages of the document: the image page, then the list pages if any. */
  function PageCount(n: nat, pageHeight: real): nat {
    if n == 0 then 1 else CursorAt(n, pageHeight).page
  }

  /**
   * The pagination loop of `exportPDF`: page 1 holds the image; with buildings to list, a
   * second page is added and each entry is written at `yPos`, which then moves 10 mm down,
   * with a fresh page started at 20 mm once it passes 20 mm above the bottom.
   */
  method ListBuildings(buildings: seq<SceneObj>, pageHeight: real) returns (pages: nat, entries: seq<ListEntry>)
    ensures pages == PageCount(|buildings|, pageHeight)
    ensures entries == ListEntries(buildings, pageHeight)
  {
    pages := 1;
    entries := [];
    if |buildings| > 0 {
      pages := pages + 1;
      var yPos := 40.0;
      for i := 0 to |buildings|
        invariant Cursor(pages, yPos) == CursorAt(i, pageHeight)
        invariant entries == ListEntries(buildings[..i], pageHeight)
      {
        ListEntriesSnoc(buildings, i, pageHeight);
        entries := entries + [EntryOf(i, buildings[i], Cursor(pages, yPos))];
        yPos := yPos + 10.0;
        if yPos > pageHeight - 20.0 {
          pages := pages + 1;
          yPos := 20.0;
        }
      }
      assert buildings[..|buildings|] == buildings;
    }
  }

  /** What `exportPDF` achieves. */
  datatype PdfResult =
    | LibraryMissing
    | CaptureFailed
    | Saved(image: ImagePlacement, pages: nat, entries: seq<ListEntry>)

  /**
   * `exportPDF` on the canvas and grid of `sc`. `libraryLoaded` says whether jsPDF is present
   * and `captureOk` whether `canvas.toDataURL` returns. The grid lines are hidden for the
   * capture and afterwards given back their saved flags; if the capture throws, they stay
   * hidden. On success the result holds the image placement and the building list.
   */
  method ExportPdf(sc: SiteMapCanvas, bg: Option<nat>, libraryLoaded: bool, captureOk: bool)
    returns (r: PdfResult)
    requires sc.Valid()
    modifies sc.canvas`objects
    ensures sc.Valid()
    ensures !libraryLoaded ==> r == LibraryMissing && sc.canvas.objects == old(sc.canvas.objects)
    ensures libraryLoaded && !captureOk ==>
              r == CaptureFailed && sc.canvas.objects == Hidden(old(sc.canvas.objects), sc.gridLines)
    ensures libraryLoaded && captureOk ==>
              var page := PageSize(CANVAS_WIDTH, CANVAS_HEIGHT);
              var listed := Filter(old(sc.canvas.objects), Exportable(bg));
              sc.canvas.objects == old(sc.canvas.objects)
              && r == Saved(FitImage(CANVAS_WIDTH, CANVAS_HEIGHT, page.0, page.1),
                            PageCount(|listed|, page.1), ListEntries(listed, page.1))
  {
    if !libraryLoaded {
      return LibraryMissing;
    }
    var c := sc.canvas;
    var page := PageSize(CANVAS_WIDTH, CANVAS_HEIGHT);
    var pageWidth := page.0;
    var pageHeight := page.1;
    var gridVisibility := HideGridLines(sc);
    if !captureOk {
      return CaptureFailed;
    }
    RestoreGridLines(sc, gridVisibility, old(sc.canvas.objects));
    var image := FitImage(CANVAS_WIDTH, CANVAS_HEIGHT, pageWidth, pageHeight);
    var buildings := Filter(c.objects, Exportable(bg));
    var pages, entries := ListBuildings(buildings, pageHeight);
    r := Saved(image, pages, entries);
  }

  /**
   * The first `forEach` of `exportPDF`: each grid line's `visible` flag is saved, in order,
   * and the line is hidden.
   */
  method HideGridLines(sc: SiteMapCanvas) returns (gridVisibility: seq<bool>)
    requires sc.Valid()
    modifies sc.canvas`objects
    ensures sc.Valid() && sc.canvas.objects == Hidden(old(sc.canvas.objects), sc.gridLines)
    ensures |gridVisibility| == |sc.gridLines|
    ensures gridVisibility == SavedFlags(old(sc.canvas.objects), sc.gridLines)
  {
    var c := sc.canvas;
    var gridLines := sc.gridLines;
    ghost var before := c.objects;
    gridVisibility := [];
    HiddenNone(before);
    for i := 0 to |gridLines|
      invariant c.Valid() && c.nextUid == old(c.nextUid)
      invariant c.objects == Hidden(before, gridLines[..i])
      invariant gridVisibility == SavedFlags(before, gridLines[..i])
    {
      HideStepAt(before, gridLines, i);
      SavedFlagsSnoc(before, gridLines, i);
      var line := Find(c.objects, gridLines[i]);
      if line.Some? {
        gridVisibility := gridVisibility + [line.value.visible];
        c.SetObject(line.value.(visible := false));
      } else {
        gridVisibility := gridVisibility + [false];
      }
    }
    WholePrefix(gridLines);
  }

  /**
   * The second `forEach` of `exportPDF`: each grid line gets back its saved flag, so the
   * scene is again what it was before `HideGridLines`.
   */
  method RestoreGridLines(sc: SiteMapCanvas, gridVisibility: seq<bool>, ghost before: seq<SceneObj>)
    requires sc.Valid() && |gridVisibility| == |sc.gridLines| && UniqueUids(before)
    requires sc.canvas.objects == Hidden(before, sc.gridLines)
    requires gridVisibility == SavedFlags(before, sc.gridLines)
    modifies sc.canvas`objects
    ensures sc.Valid() && sc.canvas.objects == before
  {
    var c := sc.canvas;
    var gridLines := sc.gridLines;
    for i := 0 to |gridLines|
      invariant sc.Valid() && c.objects == Hidden(before, gridLines[i..])
    {
      RestoreStep(before, gridLines, i, gridVisibility[i]);
      var line := Find(c.objects, gridLines[i]);
      if line.Some? {
        c.SetObject(line.value.(visible := gridVisibility[i]));
      }
    }
    assert gridLines[|gridLines|..] == [];
    HiddenNone(before);
  }
}
