/**
 * js/canvas.js: the 910 mm grid, its visibility switch and the PDF page used as a
 * background, around the Fabric canvas of module Scene.
 */
module CanvasLayer {
  import opened Common
  import opened Config
  import opened Grid
  import opened Scene

  const MAJOR_GRID_INTERVAL: nat := 10
  const MAJOR_STROKE: string := "#bbb"
  const MINOR_STROKE: string := "#e8e8e8"
  const PDF_MIME_TYPE: string := "application/pdf"

  /** How many indices `for (i = 0; i <= len / GRID_SIZE; i++)` visits. */
  function LineCount(len: real): (n: nat)
    requires len >= 0.0
    ensures (n - 1) as real <= len / GridSize() < n as real
  {
    (len / GridSize()).Floor + 1
  }

  const VERTICAL_LINES: nat := 330
  const HORIZONTAL_LINES: nat := 234

  /** On the 1200 x 850 canvas `drawGrid` draws 330 vertical and 234 horizontal lines. */
  lemma LineCounts()
    ensures LineCount(CANVAS_WIDTH) == VERTICAL_LINES && LineCount(CANVAS_HEIGHT) == HORIZONTAL_LINES
  {
    assert 329.0 <= CANVAS_WIDTH / GridSize() < 330.0;
    assert 233.0 <= CANVAS_HEIGHT / GridSize() < 234.0;
  }

  /** Every tenth line, starting with line 0, is a major line. */
  predicate IsMajor(i: nat) {
    i % MAJOR_GRID_INTERVAL == 0
  }

  /** A grid line from (x1, y1) to (x2, y2): not selectable, not evented, not exported. */
  function GridLineObj(u: nat, x1: real, y1: real, x2: real, y2: real, major: bool): SceneObj {
    var body := Line(x1, y1, x2, y2, if major then MAJOR_STROKE else MINOR_STROKE, if major then 1.0 else 0.5);
    NewObject(u, body).(left := x1, top := y1, width := x2 - x1, height := y2 - y1,
                        selectable := false, evented := false, excludeFromExport := true)
  }

  /** Vertical line i, at x = i * GRID_SIZE across the whole canvas height. */
  function VerticalLine(u: nat, i: nat): SceneObj {
    var x := i as real * GridSize();
    GridLineObj(u, x, 0.0, x, CANVAS_HEIGHT, IsMajor(i))
  }

  /** Horizontal line j, at y = j * GRID_SIZE across the whole canvas width. */
  function HorizontalLine(u: nat, j: nat): SceneObj {
    var y := j as real * GridSize();
    GridLineObj(u, 0.0, y, CANVAS_WIDTH, y, IsMajor(j))
  }

  /** Line i of one direction. */
  function GridLine(vertical: bool, u: nat, i: nat): SceneObj {
    if vertical then VerticalLine(u, i) else HorizontalLine(u, i)
  }

  /** The extent the lines of one direction are spread over: the canvas width or height. */
  function Span(vertical: bool): real {
    if vertical then CANVAS_WIDTH else CANVAS_HEIGHT
  }

  /** The lines of one direction, numbered from 0, with identities `us`. */
  function LinesFor(vertical: bool, us: seq<nat>): (r: seq<SceneObj>)
    ensures |r| == |us| && Uids(r) == us
  {
    seq(|us|, k requires 0 <= k < |us| => GridLine(vertical, us[k], k))
  }

  /** The identities first, first + 1, ..., first + n - 1. */
  function Range(first: nat, n: nat): (r: seq<nat>)
    ensures |r| == n && forall k :: 0 <= k < n ==> r[k] == first + k
  {
    seq(n, k requires 0 <= k < n => first + k)
  }

  lemma RangeSnoc(first: nat, n: nat)
    ensures Range(first, n + 1) == Range(first, n) + [first + n]
  {
  }

  lemma LinesSnoc(vertical: bool, us: seq<nat>, u: nat)
    ensures LinesFor(vertical, us + [u]) == LinesFor(vertical, us) + [GridLine(vertical, u, |us|)]
  {
  }

  /** The lines `drawGrid` creates, with identities `us`: vertical ones first, then horizontal. */
  function GridLinesFor(us: seq<nat>): (r: seq<SceneObj>)
    requires |us| == VERTICAL_LINES + HORIZONTAL_LINES
    ensures |r| == |us| && Uids(r) == us
  {
    LinesFor(true, us[..VERTICAL_LINES]) + LinesFor(false, us[VERTICAL_LINES..])
  }

  /** Fresh identities for both directions give the two directions' lines one after the other. */
  lemma GridLinesSplit(first: nat)
    ensures var us := Range(first, VERTICAL_LINES) + Range(first + VERTICAL_LINES, HORIZONTAL_LINES);
            |us| == VERTICAL_LINES + HORIZONTAL_LINES
            && GridLinesFor(us) == LinesFor(true, Range(first, VERTICAL_LINES))
                                   + LinesFor(false, Range(first + VERTICAL_LINES, HORIZONTAL_LINES))
  {
    var us := Range(first, VERTICAL_LINES) + Range(first + VERTICAL_LINES, HORIZONTAL_LINES);
    assert us[..VERTICAL_LINES] == Range(first, VERTICAL_LINES);
    assert us[VERTICAL_LINES..] == Range(first + VERTICAL_LINES, HORIZONTAL_LINES);
  }

  /** After both loops of `drawGrid`: the lines of both directions on top of `base`. */
  lemma DrawnSequence(base: seq<SceneObj>, first: nat, gl: seq<nat>, objs: seq<SceneObj>)
    requires gl == [] + Range(first, VERTICAL_LINES) + Range(first + VERTICAL_LINES, HORIZONTAL_LINES)
    requires objs == base + LinesFor(true, Range(first, VERTICAL_LINES))
                     + LinesFor(false, Range(first + VERTICAL_LINES, HORIZONTAL_LINES))
    ensures |gl| == VERTICAL_LINES + HORIZONTAL_LINES && objs == base + GridLinesFor(gl)
  {
    GridLinesSplit(first);
    assert [] + Range(first, VERTICAL_LINES) == Range(first, VERTICAL_LINES);
    ConcatAssoc(base, LinesFor(true, Range(first, VERTICAL_LINES)),
                LinesFor(false, Range(first + VERTICAL_LINES, HORIZONTAL_LINES)));
  }

  /**
   * What each drawn line is: line k lies on the grid (a fixed point of `snapToGrid`), spans
   * the canvas, is major exactly when its index within its direction is a multiple of ten,
   * and is neither selectable, evented, exported nor tagged `isGrid`.
   */
  lemma GridLineFacts(us: seq<nat>, k: nat)
    requires |us| == VERTICAL_LINES + HORIZONTAL_LINES && k < |us|
    ensures var o := GridLinesFor(us)[k];
            var i := if k < VERTICAL_LINES then k else k - VERTICAL_LINES;
            o.uid == us[k] && o.body.Line?
            && !o.selectable && !o.evented && o.excludeFromExport && !o.isGrid && o.visible
            && (o.body.stroke == MAJOR_STROKE <==> i % 10 == 0)
            && (o.body.strokeWidth == 1.0 <==> i % 10 == 0)
            && (k < VERTICAL_LINES ==>
                  o.body.x1 == o.body.x2 == SnapToGrid(o.body.x1) == i as real * GridSize()
                  && o.body.y1 == 0.0 && o.body.y2 == CANVAS_HEIGHT)
            && (k >= VERTICAL_LINES ==>
                  o.body.y1 == o.body.y2 == SnapToGrid(o.body.y1) == i as real * GridSize()
                  && o.body.x1 == 0.0 && o.body.x2 == CANVAS_WIDTH)
  {
    var i := if k < VERTICAL_LINES then k else k - VERTICAL_LINES;
    LineAt(us, k);
    LineFacts(k < VERTICAL_LINES, us[k], i);
  }

  /** Position k of the drawn lines holds line k of the vertical ones, or line k - 330 of the horizontal ones. */
  lemma LineAt(us: seq<nat>, k: nat)
    requires |us| == VERTICAL_LINES + HORIZONTAL_LINES && k < |us|
    ensures GridLinesFor(us)[k]
         == if k < VERTICAL_LINES then GridLine(true, us[k], k) else GridLine(false, us[k], k - VERTICAL_LINES)
  {
    if k < VERTICAL_LINES {
      assert GridLinesFor(us)[k] == LinesFor(true, us[..VERTICAL_LINES])[k];
    } else {
      assert GridLinesFor(us)[k] == LinesFor(false, us[VERTICAL_LINES..])[k - VERTICAL_LINES];
    }
  }

  /** Line i of one direction. */
  lemma LineFacts(vertical: bool, u: nat, i: nat)
    ensures var o := GridLine(vertical, u, i);
            o.uid == u && o.body.Line?
            && !o.selectable && !o.evented && o.excludeFromExport && !o.isGrid && o.visible
            && (o.body.stroke == MAJOR_STROKE <==> i % 10 == 0)
            && (o.body.strokeWidth == 1.0 <==> i % 10 == 0)
            && (vertical ==>
                  o.body.x1 == o.body.x2 == SnapToGrid(o.body.x1) == i as real * GridSize()
                  && o.body.y1 == 0.0 && o.body.y2 == CANVAS_HEIGHT)
            && (!vertical ==>
                  o.body.y1 == o.body.y2 == SnapToGrid(o.body.y1) == i as real * GridSize()
                  && o.body.x1 == 0.0 && o.body.x2 == CANVAS_WIDTH)
  {
    SnapOfGridPoint(i);
  }

  /** Sending the new lines to the back puts all of them, reversed, behind everything else. */
  lemma DrawnOrder(base: seq<SceneObj>, lines: seq<SceneObj>)
    requires UniqueUids(base + lines)
    ensures ToBackAll(base + lines, Uids(lines)) == Reverse(lines) + base
  {
    var s := base + lines;
    var us := Uids(lines);
    UniqueParts(base, lines);
    UniqueDistinct(lines);
    ToBackAllFromStart(s, us);
    InSuffix(base, lines);
    PickOwn(s, lines);
    DropLines(base, lines);
  }

  lemma InSuffix(base: seq<SceneObj>, lines: seq<SceneObj>)
    ensures forall x :: x in lines ==> x in base + lines
  {
  }

  /** Removing the lines from base + lines leaves base. */
  lemma DropLines(base: seq<SceneObj>, lines: seq<SceneObj>)
    requires UniqueUids(base + lines)
    ensures WithoutAll(base + lines, Uids(lines)) == base
  {
    var us := Uids(lines);
    UniqueParts(base, lines);
    FilterAppend(base, lines, NotIn(us));
    forall i | 0 <= i < |base| ensures NotIn(us)(base[i]) {
      forall k | 0 <= k < |lines| ensures base[i].uid != us[k] {
      }
    }
    FilterKeepsAll(base, NotIn(us));
    FilterDropsAll(lines, NotIn(us));
    assert base + [] == base;
  }

  /** Drawing the grid again first removes exactly the lines of the previous drawing. */
  lemma RedrawRemovesOldLines(lines: seq<SceneObj>, rest: seq<SceneObj>)
    requires UniqueUids(Reverse(lines) + rest)
    ensures WithoutAll(Reverse(lines) + rest, Uids(lines)) == rest
  {
    var s := Reverse(lines) + rest;
    var us := Uids(lines);
    ReverseAt(lines);
    FilterAppend(Reverse(lines), rest, NotIn(us));
    forall i | 0 <= i < |Reverse(lines)| ensures !NotIn(us)(Reverse(lines)[i]) {
      assert us[|lines| - 1 - i] == lines[|lines| - 1 - i].uid;
    }
    FilterDropsAll(Reverse(lines), NotIn(us));
    forall i | 0 <= i < |rest| ensures NotIn(us)(rest[i]) {
      forall k | 0 <= k < |lines| ensures rest[i].uid != us[k] {
        assert s[|lines| + i] == rest[i] && s[|lines| - 1 - k] == lines[k];
      }
    }
    FilterKeepsAll(rest, NotIn(us));
  }

  /** `line.visible = !line.visible` for every object whose identity is in `us`. */
  function Toggled(s: seq<SceneObj>, us: seq<nat>): (r: seq<SceneObj>)
    ensures |r| == |s|
  {
    seq(|s|, i requires 0 <= i < |s| => if s[i].uid in us then s[i].(visible := !s[i].visible) else s[i])
  }

  /** Toggling twice restores every object; toggling keeps identities and order. */
  lemma ToggleTwice(s: seq<SceneObj>, us: seq<nat>)
    ensures Toggled(Toggled(s, us), us) == s
    ensures Uids(Toggled(s, us)) == Uids(s)
  {
  }

  /** One more line toggled, as `toggleGrid`'s `forEach` does it. */
  lemma ToggleStep(s: seq<SceneObj>, p: seq<nat>, u: nat)
    requires UniqueUids(s) && u !in p
    ensures var t := Toggled(s, p);
            Toggled(s, p + [u]) == match Find(t, u)
                                   case Some(o) => Updated(t, o.(visible := !o.visible))
                                   case None => t
  {
    var t := Toggled(s, p);
    assert Uids(t) == Uids(s);
    match Find(t, u)
    case Some(o) => {
      var i := IndexOf(t, u);
      forall k | 0 <= k < |s| ensures Toggled(s, p + [u])[k] == Updated(t, o.(visible := !o.visible))[k] {
        if s[k].uid == u {
          assert !(k < i) && !(i < k);
        }
      }
    }
    case None => {
      forall k | 0 <= k < |s| ensures Toggled(s, p + [u])[k] == t[k] {
        assert Uids(t)[k] != u;
      }
    }
  }

  /** The chosen file; only its MIME type `file.type` is looked at. */
  datatype PdfFile = PdfFile(mimeType: string)

  /** The outcome of `loadPDF`: rejected file, failure while reading or rendering, or loaded. */
  datatype LoadResult = NotPdf | ReadFailed | Loaded

  /**
   * `Math.min(CANVAS_WIDTH / vw, CANVAS_HEIGHT / vh)`: the largest scale at which the
   * page fits inside the canvas.
   */
  function FitScale(vw: real, vh: real): (scale: real)
    requires vw > 0.0 && vh > 0.0
    ensures scale > 0.0 && vw * scale <= CANVAS_WIDTH && vh * scale <= CANVAS_HEIGHT
    ensures vw * scale == CANVAS_WIDTH || vh * scale == CANVAS_HEIGHT
  {
    var sx := CANVAS_WIDTH / vw;
    var sy := CANVAS_HEIGHT / vh;
    if sx <= sy then sx else sy
  }

  /** No larger scale fits. */
  lemma FitScaleIsLargest(vw: real, vh: real, t: real)
    requires vw > 0.0 && vh > 0.0 && t > FitScale(vw, vh)
    ensures vw * t > CANVAS_WIDTH || vh * t > CANVAS_HEIGHT
  {
    var scale := FitScale(vw, vh);
    if vw * scale == CANVAS_WIDTH {
      assert vw * t > vw * scale;
    } else {
      assert vh * t > vh * scale;
    }
  }

  /**
   * The background image: the rendered page, whose pixel size is the scaled viewport truncated
   * to whole pixels by the temporary canvas, centred, half transparent, not selectable.
   */
  function BackgroundFor(u: nat, vw: real, vh: real): SceneObj
    requires vw > 0.0 && vh > 0.0
  {
    var scale := FitScale(vw, vh);
    var iw := (vw * scale).Floor as real;
    var ih := (vh * scale).Floor as real;
    NewObject(u, Image(PDF_BACKGROUND_OPACITY)).(
      left := (CANVAS_WIDTH - iw) / 2.0, top := (CANVAS_HEIGHT - ih) / 2.0,
      width := iw, height := ih,
      selectable := false, evented := false, excludeFromExport := false, isBackground := true)
  }

  /**
   * The background lies inside the canvas with equal margins on opposite sides, and is an
   * image at half opacity.
   */
  lemma BackgroundCentred(u: nat, vw: real, vh: real)
    requires vw > 0.0 && vh > 0.0
    ensures var o := BackgroundFor(u, vw, vh);
            0.0 <= o.left && o.left + o.width <= CANVAS_WIDTH
            && CANVAS_WIDTH - (o.left + o.width) == o.left
            && 0.0 <= o.top && o.top + o.height <= CANVAS_HEIGHT
            && CANVAS_HEIGHT - (o.top + o.height) == o.top
            && o.width >= 0.0 && o.height >= 0.0
            && o.isBackground && !o.selectable && !o.evented && !o.excludeFromExport
            && o.body == Image(PDF_BACKGROUND_OPACITY) && PDF_BACKGROUND_OPACITY == 0.5
  {
  }

  /**
   * After a successful load the grid lines lie, reversed, behind the new background, which
   * lies behind every other object.
   */
  lemma LoadedOrder(img: SceneObj, rest: seq<SceneObj>, lines: seq<nat>)
    requires UniqueUids([img] + rest) && Distinct(lines) && img.uid !in lines
    ensures ToBackAll([img] + rest, lines) == Reverse(Pick(rest, lines)) + [img] + WithoutAll(rest, lines)
  {
    var s := [img] + rest;
    ToBackAllFromStart(s, lines);
    PickCons(img, rest, lines);
    assert Filter(s, NotIn(lines)) == [img] + Filter(rest, NotIn(lines)) by {
      assert s[1..] == rest;
    }
    ConcatAssoc(Reverse(Pick(rest, lines)), [img], WithoutAll(rest, lines));
  }

  /** Picking identities other than the first object's ignores that object. */
  lemma {:induction false} PickCons(o: SceneObj, rest: seq<SceneObj>, us: seq<nat>)
    requires o.uid !in us
    ensures Pick([o] + rest, us) == Pick(rest, us)
    decreases |us|
  {
    if us != [] {
      FindCons(o, rest, us[0]);
      PickCons(o, rest, us[1..]);
    }
  }

  /**
   * The loop of `drawGrid` for one direction: a new line for every index i with
   * i <= span / GRID_SIZE, added on top of the canvas; `added` are their identities.
   */
  method AddLinesTo(c: Canvas, vertical: bool) returns (added: seq<nat>)
    requires c.Valid()
    modifies c`objects, c`nextUid
    ensures c.Valid()
    ensures var n := LineCount(Span(vertical));
            c.nextUid == old(c.nextUid) + n && added == Range(old(c.nextUid), n)
            && c.objects == old(c.objects) + LinesFor(vertical, Range(old(c.nextUid), n))
  {
    ghost var first := c.nextUid;
    ghost var n := LineCount(Span(vertical));
    added := [];
    var i: nat := 0;
    while i as real <= Span(vertical) / GridSize()
      invariant i <= n && c.nextUid == first + i
      invariant c.Valid()
      invariant added == Range(first, i)
      invariant c.objects == old(c.objects) + LinesFor(vertical, Range(first, i))
      decreases n - i
    {
      var u := c.NewUid();
      var line := GridLine(vertical, u, i);
      RangeSnoc(first, i);
      LinesSnoc(vertical, Range(first, i), u);
      added := added + [u];
      c.Add(line);
      i := i + 1;
    }
  }

  /** Fresh identities appended to a duplicate-free list of older ones. */
  lemma FreshRange(gl: seq<nat>, first: nat, n: nat)
    requires Distinct(gl) && forall k :: 0 <= k < |gl| ==> gl[k] < first
    ensures var r := gl + Range(first, n);
            Distinct(r) && forall k :: 0 <= k < |r| ==> r[k] < first + n
  {
    var r := gl + Range(first, n);
    forall i, j | 0 <= i < j < |r| ensures r[i] != r[j] {
      if j >= |gl| && i < |gl| {
        assert r[i] == gl[i] && r[j] == first + (j - |gl|);
      }
    }
  }

  /** The loop of `toggleGrid`: flip the `visible` flag of every object whose identity is in `gl`. */
  method ToggleLines(c: Canvas, gl: seq<nat>)
    requires c.Valid() && Distinct(gl)
    modifies c`objects
    ensures c.Valid() && c.objects == Toggled(old(c.objects), gl)
  {
    var i := 0;
    while i < |gl|
      invariant 0 <= i <= |gl|
      invariant c.Valid() && c.objects == Toggled(old(c.objects), gl[..i])
    {
      ToggleOne(c, gl, i, old(c.objects));
      i := i + 1;
    }
    assert gl[..i] == gl;
  }

  /** One turn of the `toggleGrid` loop, on the identity gl[i]. */
  method ToggleOne(c: Canvas, gl: seq<nat>, i: nat, ghost s0: seq<SceneObj>)
    requires c.Valid() && Distinct(gl) && i < |gl| && UniqueUids(s0)
    requires c.objects == Toggled(s0, gl[..i])
    modifies c`objects
    ensures c.Valid() && c.objects == Toggled(s0, gl[..i + 1])
  {
    assert gl[i] !in gl[..i];
    ToggleStep(s0, gl[..i], gl[i]);
    assert gl[..i + 1] == gl[..i] + [gl[i]];
    var o := Find(c.objects, gl[i]);
    if o.Some? {
      c.SetObject(o.value.(visible := !o.value.visible));
    }
  }

  /**
   * The state of js/canvas.js: the Fabric canvas, the grid lines it drew (`gridLines`) and
   * the background image (`backgroundImage`, mirrored in `window.backgroundImage`).
   */
  class SiteMapCanvas {
    const canvas: Canvas
    var gridLines: seq<nat>
    var backgroundImage: Option<nat>

    /** The canvas is consistent and the remembered identities have all been handed out. */
    ghost predicate Valid()
      reads this, canvas
    {
      canvas.Valid() && Distinct(gridLines)
      && (forall k :: 0 <= k < |gridLines| ==> gridLines[k] < canvas.nextUid)
      && (backgroundImage.Some? ==>
            backgroundImage.value < canvas.nextUid && backgroundImage.value !in gridLines)
    }

    /** `initializeCanvas`: an empty 1200 x 850 canvas with the grid drawn. */
    constructor ()
      ensures Valid() && backgroundImage == None
      ensures |gridLines| == VERTICAL_LINES + HORIZONTAL_LINES
      ensures canvas.objects == Reverse(GridLinesFor(gridLines))
    {
      canvas := new Canvas();
      gridLines := [];
      backgroundImage := None;
      new;
      DrawGrid();
      assert WithoutAll([], []) == [];
    }

    /**
     * `drawGrid`: remove the previous lines, add the vertical and then the horizontal lines
     * on top, then send each line to the back in turn.
     */
    method DrawGrid()
      requires Valid()
      modifies this`gridLines, canvas`objects, canvas`nextUid, canvas`active
      ensures Valid()
      ensures |gridLines| == VERTICAL_LINES + HORIZONTAL_LINES
      ensures canvas.objects
           == Reverse(GridLinesFor(gridLines)) + WithoutAll(old(canvas.objects), old(gridLines))
      ensures canvas.active
           == SelectionAfter(old(canvas.active), old(canvas.objects), WithoutAll(old(canvas.objects), old(gridLines)))
    {
      RemoveGridLines();
      DrawLines();
    }

    /** The two loops of `drawGrid` and the `sendToBack` pass, once the old lines are gone. */
    method DrawLines()
      requires Valid() && gridLines == []
      modifies this`gridLines, canvas`objects, canvas`nextUid
      ensures Valid()
      ensures |gridLines| == VERTICAL_LINES + HORIZONTAL_LINES
      ensures canvas.objects == Reverse(GridLinesFor(gridLines)) + old(canvas.objects)
    {
      ghost var base := canvas.objects;
      ghost var first := canvas.nextUid;
      LineCounts();
      AddLines(true);
      AddLines(false);
      DrawnSequence(base, first, gridLines, canvas.objects);
      ghost var lines := GridLinesFor(gridLines);
      SendLinesToBack();
      DrawnOrder(base, lines);
    }

    /** `gridLines.forEach(line => canvas.remove(line)); gridLines = []`. */
    method RemoveGridLines()
      requires Valid()
      modifies this`gridLines, canvas`objects, canvas`active
      ensures Valid() && gridLines == []
      ensures canvas.objects == WithoutAll(old(canvas.objects), old(gridLines))
      ensures canvas.active == SelectionAfter(old(canvas.active), old(canvas.objects), canvas.objects)
    {
      FilterKeepsAll(canvas.objects, NotIn([]));
      assert gridLines[..0] == [];
      ghost var a0 := canvas.active;
      var i := 0;
      while i < |gridLines|
        invariant 0 <= i <= |gridLines| && gridLines == old(gridLines)
        invariant Valid() && canvas.objects == WithoutAll(old(canvas.objects), gridLines[..i])
        invariant canvas.active == SelectionAfter(a0, old(canvas.objects), canvas.objects)
        invariant |a0| == 1 && a0[0] in Uids(canvas.objects) ==> a0[0] in Uids(old(canvas.objects))
      {
        WithoutAllSnoc(old(canvas.objects), gridLines[..i], gridLines[i]);
        assert gridLines[..i + 1] == gridLines[..i] + [gridLines[i]];
        DeselectStep(a0, old(canvas.objects), canvas.objects, gridLines[i]);
        canvas.Remove(gridLines[i]);
        i := i + 1;
      }
      assert gridLines[..i] == gridLines;
      gridLines := [];
    }

    /**
     * One of the two loops of `drawGrid`: a new line for every index i with
     * i <= span / GRID_SIZE, pushed onto `gridLines` and added on top of the canvas.
     */
    method AddLines(vertical: bool)
      requires Valid()
      modifies this`gridLines, canvas`objects, canvas`nextUid
      ensures Valid()
      ensures var n := LineCount(Span(vertical));
              canvas.nextUid == old(canvas.nextUid) + n
              && gridLines == old(gridLines) + Range(old(canvas.nextUid), n)
              && canvas.objects == old(canvas.objects) + LinesFor(vertical, Range(old(canvas.nextUid), n))
    {
      var added := AddLinesTo(canvas, vertical);
      FreshRange(gridLines, old(canvas.nextUid), |added|);
      gridLines := gridLines + added;
    }

    /** `gridLines.forEach(line => canvas.sendToBack(line))`. */
    method SendLinesToBack()
      requires Valid()
      modifies canvas`objects
      ensures Valid() && canvas.objects == ToBackAll(old(canvas.objects), gridLines)
    {
      var i := 0;
      while i < |gridLines|
        invariant 0 <= i <= |gridLines|
        invariant Valid() && canvas.objects == ToBackAll(old(canvas.objects), gridLines[..i])
      {
        ToBackAllSnoc(old(canvas.objects), gridLines[..i], gridLines[i]);
        assert gridLines[..i + 1] == gridLines[..i] + [gridLines[i]];
        canvas.SendToBack(gridLines[i]);
        i := i + 1;
      }
      assert gridLines[..i] == gridLines;
    }

    /** `toggleGrid`: flip the `visible` flag of every grid line. */
    method ToggleGrid()
      requires Valid()
      modifies canvas`objects
      ensures Valid() && canvas.objects == Toggled(old(canvas.objects), gridLines)
    {
      ToggleLines(canvas, gridLines);
    }

    /**
     * `loadPDF`. `file` is `event.target.files[0]`; `vw` and `vh` are the size of page 1 at
     * scale 1; `readable` says whether reading, parsing and rendering the page all succeed.
     */
    method LoadPdf(file: Option<PdfFile>, vw: real, vh: real, readable: bool) returns (r: LoadResult)
      requires Valid() && vw > 0.0 && vh > 0.0
      modifies this`backgroundImage, canvas`objects, canvas`nextUid, canvas`active
      ensures Valid()
      ensures r == NotPdf <==> file.None? || file.value.mimeType != PDF_MIME_TYPE
      ensures r == ReadFailed <==> file.Some? && file.value.mimeType == PDF_MIME_TYPE && !readable
      ensures r != Loaded ==> canvas.objects == old(canvas.objects) && canvas.active == old(canvas.active)
                              && backgroundImage == old(backgroundImage) && canvas.nextUid == old(canvas.nextUid)
      ensures r == Loaded ==>
                var u := old(canvas.nextUid);
                var rest := if old(backgroundImage).Some? then Without(old(canvas.objects), old(backgroundImage).value)
                            else old(canvas.objects);
                backgroundImage == Some(u)
                && canvas.objects == ToBackAll([BackgroundFor(u, vw, vh)] + rest, gridLines)
                && canvas.active == if old(backgroundImage).Some?
                                    then Deselected(old(canvas.active), old(canvas.objects), old(backgroundImage).value)
                                    else old(canvas.active)
    {
      if file.None? || file.value.mimeType != PDF_MIME_TYPE {
        return NotPdf;
      }
      if !readable {
        return ReadFailed;
      }
      if backgroundImage.Some? {
        canvas.Remove(backgroundImage.value);
      }
      ShowBackground(vw, vh);
      r := Loaded;
    }

    /**
     * The `fabric.Image.fromURL` callback: the rendered page becomes the background image,
     * sent to the back, and then the grid lines are sent behind it.
     */
    method ShowBackground(vw: real, vh: real)
      requires Valid() && vw > 0.0 && vh > 0.0
      modifies this`backgroundImage, canvas`objects, canvas`nextUid
      ensures Valid()
      ensures var u := old(canvas.nextUid);
              backgroundImage == Some(u) && canvas.nextUid == u + 1
              && canvas.objects == ToBackAll([BackgroundFor(u, vw, vh)] + old(canvas.objects), gridLines)
    {
      ghost var rest := canvas.objects;
      var u := canvas.NewUid();
      var img := BackgroundFor(u, vw, vh);
      backgroundImage := Some(u);
      canvas.Add(img);
      ToBackAfter(rest, [img]);
      assert rest + [img] == canvas.objects;
      canvas.SendToBack(u);
      assert canvas.objects == [img] + rest;
      SendLinesToBack();
    }

    /** `clearBackground`: remove the background image, if there is one, and forget it. */
    method ClearBackground()
      requires Valid()
      modifies this`backgroundImage, canvas`objects, canvas`active
      ensures Valid() && backgroundImage == None
      ensures old(backgroundImage).Some? ==>
                canvas.objects == Without(old(canvas.objects), old(backgroundImage).value)
                && canvas.active == Deselected(old(canvas.active), old(canvas.objects), old(backgroundImage).value)
                && old(backgroundImage).value !in Uids(canvas.objects)
      ensures old(backgroundImage).None? ==> canvas.objects == old(canvas.objects) && canvas.active == old(canvas.active)
    {
      if backgroundImage.Some? {
        var b := backgroundImage.value;
        canvas.Remove(b);
        FilterMembers(old(canvas.objects), OtherThan(b));
        backgroundImage := None;
      }
    }
  }
}
