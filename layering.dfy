/**
 * `maintainLayerOrder` of js/main.js as a function on the object list, and what it does
 * to the stacking: background first, then the drawing frame and the `isGrid` objects.
 */
module Layering {
  import opened Common
  import opened Scene

  /** `obj.isGrid`. */
  predicate GridFlag(o: SceneObj) {
    o.isGrid
  }

  predicate NotGridFlag(o: SceneObj) {
    !o.isGrid
  }

  /** `canvas.getObjects().find(obj => obj.objectType === 'drawingFrame')`. */
  function FindFrame(s: seq<SceneObj>): (r: Option<SceneObj>)
    ensures r.Some? ==> r.value in s && IsDrawingFrame(r.value)
    ensures r.Some? ==> exists i :: 0 <= i < |s| && s[i] == r.value
                                    && forall j :: 0 <= j < i ==> !IsDrawingFrame(s[j])
    ensures r.None? ==> forall x :: x in s ==> !IsDrawingFrame(x)
  {
    if s == [] then None
    else if IsDrawingFrame(s[0]) then Some(s[0])
    else
      var r := FindFrame(s[1..]);
      if r.Some? then
        var i :| 0 <= i < |s[1..]| && s[1..][i] == r.value
                 && forall j :: 0 <= j < i ==> !IsDrawingFrame(s[1..][j]);
        assert s[i + 1] == r.value && forall j :: 0 <= j < i + 1 ==> !IsDrawingFrame(s[j]) by {
          forall j | 0 <= j < i + 1 ensures !IsDrawingFrame(s[j]) {
            if j > 0 { assert s[j] == s[1..][j - 1]; }
          }
        }
        r
      else r
  }

  /** One iteration of the grid step: `sendToBack(grid)`, then `bringForward(grid)` if asked. */
  function GridMove(s: seq<SceneObj>, g: nat, forward: bool): seq<SceneObj> {
    var t := ToBack(s, g);
    if forward then Forward(t, g) else t
  }

  /** `gridLines.forEach(...)` over the identities `gs`, in order. */
  function GridSteps(s: seq<SceneObj>, gs: seq<nat>, forward: bool): seq<SceneObj>
    decreases |gs|
  {
    if gs == [] then s else GridSteps(GridMove(s, gs[0], forward), gs[1..], forward)
  }

  /** `maintainLayerOrder`, with `bg` the identity held in `window.backgroundImage`. */
  function LayerOrder(s: seq<SceneObj>, bg: Option<nat>): seq<SceneObj> {
    // 1. the background to the back
    var s1 := if bg.Some? then ToBack(s, bg.value) else s;
    // 2. the drawing frame to the back, then one step forward when there is a background
    var frame := FindFrame(s1);
    var s2 :=
      if frame.None? then s1
      else if bg.Some? then Forward(ToBack(s1, frame.value.uid), frame.value.uid)
      else ToBack(s1, frame.value.uid);
    // 3. every isGrid object to the back, then one step forward when there is a frame or a background
    GridSteps(s2, Uids(Filter(s2, GridFlag)), frame.Some? || bg.Some?)
  }

  /** One more iteration of the grid step. */
  lemma {:induction false} GridStepsSnoc(s: seq<SceneObj>, gs: seq<nat>, g: nat, forward: bool)
    ensures GridSteps(s, gs + [g], forward) == GridMove(GridSteps(s, gs, forward), g, forward)
    decreases |gs|
  {
    if gs == [] {
      assert [g][1..] == [];
    } else {
      assert (gs + [g])[1..] == gs[1..] + [g];
      GridStepsSnoc(GridMove(s, gs[0], forward), gs[1..], g, forward);
    }
  }

  lemma {:induction false} GridStepsPermute(s: seq<SceneObj>, gs: seq<nat>, forward: bool)
    requires UniqueUids(s)
    ensures multiset(GridSteps(s, gs, forward)) == multiset(s)
    ensures UniqueUids(GridSteps(s, gs, forward))
    decreases |gs|
  {
    if gs != [] {
      ToBackPermutes(s, gs[0]);
      ForwardPermutes(ToBack(s, gs[0]), gs[0]);
      GridStepsPermute(GridMove(s, gs[0], forward), gs[1..], forward);
    }
  }

  /** One grid move on h + q + t, the grid object being the first of t. */
  lemma GridMoveHead(h: seq<SceneObj>, q: seq<SceneObj>, t: seq<SceneObj>, forward: bool)
    requires |h| == (if forward then 1 else 0) && t != []
    requires UniqueUids(h + q + t)
    ensures GridMove(h + q + t, t[0].uid, forward) == h + [t[0]] + q + t[1..]
  {
    assert h + q + t == (h + q) + t;
    ToBackAfter(h + q, t);
    var y := [t[0]] + (h + q) + t[1..];
    if forward {
      assert IndexOf(y, t[0].uid) == 0;
      assert Forward(y, t[0].uid) == [y[1], y[0]] + y[2..];
      assert y[2..] == q + t[1..];
    } else {
      assert h == [];
    }
  }

  /**
   * The heart of the grid step: starting from `h + Reverse(d) + m + t`, moving the grid
   * objects of `t` one after the other puts them, reversed, right behind the head `h`.
   */
  lemma {:induction false} GridStepsShape(h: seq<SceneObj>, d: seq<SceneObj>, m: seq<SceneObj>,
                                          t: seq<SceneObj>, forward: bool)
    requires |h| == (if forward then 1 else 0)
    requires UniqueUids(h + Reverse(d) + m + t)
    ensures GridSteps(h + Reverse(d) + m + t, Uids(Filter(t, GridFlag)), forward)
         == h + Reverse(d + Filter(t, GridFlag)) + m + Filter(t, NotGridFlag)
    decreases |t|, 1
  {
    if t == [] {
      assert d + Filter(t, GridFlag) == d;
      assert m + Filter(t, NotGridFlag) == m + t;
    } else if !t[0].isGrid {
      GridStepsSkip(h, d, m, t, forward);
    } else {
      GridStepsTake(h, d, m, t, forward);
    }
  }

  /** The first object of t is not a grid object: it stays where it is. */
  lemma {:induction false} GridStepsSkip(h: seq<SceneObj>, d: seq<SceneObj>, m: seq<SceneObj>,
                                         t: seq<SceneObj>, forward: bool)
    requires |h| == (if forward then 1 else 0) && t != [] && !t[0].isGrid
    requires UniqueUids(h + Reverse(d) + m + t)
    ensures GridSteps(h + Reverse(d) + m + t, Uids(Filter(t, GridFlag)), forward)
         == h + Reverse(d + Filter(t, GridFlag)) + m + Filter(t, NotGridFlag)
    decreases |t|, 0
  {
    SkipShift(h, d, m, t);
    GridStepsShape(h, d, m + [t[0]], t[1..], forward);
  }

  /** The sequences of `GridStepsSkip` rewritten with the first object of t moved into m. */
  lemma SkipShift(h: seq<SceneObj>, d: seq<SceneObj>, m: seq<SceneObj>, t: seq<SceneObj>)
    requires t != [] && !t[0].isGrid
    ensures h + Reverse(d) + m + t == h + Reverse(d) + (m + [t[0]]) + t[1..]
    ensures Uids(Filter(t, GridFlag)) == Uids(Filter(t[1..], GridFlag))
    ensures h + Reverse(d + Filter(t[1..], GridFlag)) + (m + [t[0]]) + Filter(t[1..], NotGridFlag)
         == h + Reverse(d + Filter(t, GridFlag)) + m + Filter(t, NotGridFlag)
  {
    assert t == [t[0]] + t[1..];
    MoveAcross(h + Reverse(d), m, t[0], t[1..]);
    FilterHeadOut(t, GridFlag);
    FilterHeadIn(t, NotGridFlag);
    MoveAcross(h + Reverse(d + Filter(t, GridFlag)), m, t[0], Filter(t[1..], NotGridFlag));
  }

  /** Moving one object across the seam between two parts of a concatenation. */
  lemma MoveAcross(a: seq<SceneObj>, m: seq<SceneObj>, x: SceneObj, l: seq<SceneObj>)
    ensures a + (m + [x]) + l == a + m + ([x] + l)
  {
  }

  lemma FilterHeadOut(t: seq<SceneObj>, p: SceneObj -> bool)
    requires t != [] && !p(t[0])
    ensures Filter(t, p) == Filter(t[1..], p)
  {
    assert Filter(t, p) == [] + Filter(t[1..], p);
  }

  lemma FilterHeadIn(t: seq<SceneObj>, p: SceneObj -> bool)
    requires t != [] && p(t[0])
    ensures Filter(t, p) == [t[0]] + Filter(t[1..], p)
  {
  }

  lemma GridMoveUnique(s: seq<SceneObj>, g: nat, forward: bool)
    requires UniqueUids(s)
    ensures UniqueUids(GridMove(s, g, forward))
  {
    ToBackPermutes(s, g);
    ForwardPermutes(ToBack(s, g), g);
  }

  lemma GridUidsCons(t: seq<SceneObj>)
    requires t != [] && t[0].isGrid
    ensures Filter(t, GridFlag) == [t[0]] + Filter(t[1..], GridFlag)
    ensures Filter(t, NotGridFlag) == Filter(t[1..], NotGridFlag)
    ensures var gs := Uids(Filter(t, GridFlag));
            gs != [] && gs[0] == t[0].uid && gs[1..] == Uids(Filter(t[1..], GridFlag))
  {
    FilterHeadIn(t, GridFlag);
    FilterHeadOut(t, NotGridFlag);
    UidsCons(t[0], Filter(t[1..], GridFlag));
  }

  lemma UidsCons(o: SceneObj, s: seq<SceneObj>)
    ensures var gs := Uids([o] + s);
            gs != [] && gs[0] == o.uid && gs[1..] == Uids(s)
  {
    var gs := Uids([o] + s);
    assert forall k :: 0 <= k < |s| ==> gs[1..][k] == gs[k + 1] == ([o] + s)[k + 1].uid == s[k].uid;
  }

  /** The first iteration of the grid loop, unfolded. */
  lemma GridStepsCons(s: seq<SceneObj>, gs: seq<nat>, forward: bool)
    requires gs != []
    ensures GridSteps(s, gs, forward) == GridSteps(GridMove(s, gs[0], forward), gs[1..], forward)
  {
  }

  /** The grid object at the head of t moves right behind the head h. */
  lemma MoveFirstGrid(h: seq<SceneObj>, d: seq<SceneObj>, m: seq<SceneObj>, t: seq<SceneObj>, forward: bool)
    requires |h| == (if forward then 1 else 0) && t != []
    requires UniqueUids(h + Reverse(d) + m + t)
    ensures GridMove(h + Reverse(d) + m + t, t[0].uid, forward) == h + Reverse(d + [t[0]]) + m + t[1..]
  {
    var rd := Reverse(d);
    Regroup(h, rd, m, t);
    GridMoveHead(h, rd + m, t, forward);
    ReverseSnoc(d, t[0]);
    Regroup2(h, t[0], rd, m, t[1..]);
  }

  lemma Regroup(h: seq<SceneObj>, a: seq<SceneObj>, m: seq<SceneObj>, t: seq<SceneObj>)
    ensures h + a + m + t == h + (a + m) + t
  {
  }

  lemma Regroup2(h: seq<SceneObj>, x: SceneObj, a: seq<SceneObj>, m: seq<SceneObj>, r: seq<SceneObj>)
    ensures h + [x] + (a + m) + r == h + ([x] + a) + m + r
  {
  }

  /** The first step of the grid loop when the first object of t is a grid object. */
  lemma TakeFirst(h: seq<SceneObj>, d: seq<SceneObj>, m: seq<SceneObj>, t: seq<SceneObj>, forward: bool)
    requires |h| == (if forward then 1 else 0) && t != [] && t[0].isGrid
    requires UniqueUids(h + Reverse(d) + m + t)
    ensures GridSteps(h + Reverse(d) + m + t, Uids(Filter(t, GridFlag)), forward)
         == GridSteps(h + Reverse(d + [t[0]]) + m + t[1..], Uids(Filter(t[1..], GridFlag)), forward)
    ensures UniqueUids(h + Reverse(d + [t[0]]) + m + t[1..])
  {
    var x := h + Reverse(d) + m + t;
    GridUidsCons(t);
    GridStepsCons(x, Uids(Filter(t, GridFlag)), forward);
    MoveFirstGrid(h, d, m, t, forward);
    GridMoveUnique(x, t[0].uid, forward);
  }

  /** The first object of t is a grid object: it moves right behind the head. */
  lemma {:induction false} GridStepsTake(h: seq<SceneObj>, d: seq<SceneObj>, m: seq<SceneObj>,
                                         t: seq<SceneObj>, forward: bool)
    requires |h| == (if forward then 1 else 0) && t != [] && t[0].isGrid
    requires UniqueUids(h + Reverse(d) + m + t)
    ensures GridSteps(h + Reverse(d) + m + t, Uids(Filter(t, GridFlag)), forward)
         == h + Reverse(d + Filter(t, GridFlag)) + m + Filter(t, NotGridFlag)
    decreases |t|, 0
  {
    TakeFirst(h, d, m, t, forward);
    GridStepsShape(h, d + [t[0]], m, t[1..], forward);
    TakeShift(d, t);
  }

  /** The filters of `GridStepsTake` once the first object of t has moved into d. */
  lemma TakeShift(d: seq<SceneObj>, t: seq<SceneObj>)
    requires t != [] && t[0].isGrid
    ensures d + [t[0]] + Filter(t[1..], GridFlag) == d + Filter(t, GridFlag)
    ensures Filter(t[1..], NotGridFlag) == Filter(t, NotGridFlag)
  {
    GridUidsCons(t);
  }

  /** Filtering keeps the first drawing frame when it passes the filter. */
  lemma {:induction false} FindFrameFilter(s: seq<SceneObj>, p: SceneObj -> bool)
    requires FindFrame(s).Some? ==> p(FindFrame(s).value)
    ensures FindFrame(Filter(s, p)) == FindFrame(s)
  {
    if s != [] {
      var rest := Filter(s[1..], p);
      if IsDrawingFrame(s[0]) {
        assert Filter(s, p) == [s[0]] + rest;
      } else {
        FindFrameFilter(s[1..], p);
        if p(s[0]) {
          assert Filter(s, p) == [s[0]] + rest;
          assert ([s[0]] + rest)[1..] == rest;
        } else {
          assert Filter(s, p) == rest;
        }
      }
    }
  }

  /** The object `window.backgroundImage` refers to, when it is on the canvas. */
  function Background(s: seq<SceneObj>, bg: Option<nat>): Option<SceneObj> {
    if bg.Some? then Find(s, bg.value) else None
  }

  /**
   * The tags do not overlap on the objects `maintainLayerOrder` moves: the background is on
   * the canvas and is neither an isGrid object nor a drawing frame, and the first drawing
   * frame is not an isGrid object.
   */
  predicate WellTagged(s: seq<SceneObj>, bg: Option<nat>) {
    UniqueUids(s)
    && (bg.Some? ==> bg.value in Uids(s) && !Find(s, bg.value).value.isGrid
                     && !IsDrawingFrame(Find(s, bg.value).value))
    && (FindFrame(s).Some? ==> !FindFrame(s).value.isGrid)
  }

  /** Neither the background nor the frame `frame`. */
  function UntaggedTest(bg: Option<nat>, frame: Option<SceneObj>): SceneObj -> bool {
    (o: SceneObj) => (bg.None? || o.uid != bg.value) && (frame.None? || o.uid != frame.value.uid)
  }

  /** Content: not an isGrid object, not the background, not the frame. */
  function ContentTest(bg: Option<nat>, frame: Option<SceneObj>): SceneObj -> bool {
    (o: SceneObj) => !o.isGrid && (bg.None? || o.uid != bg.value) && (frame.None? || o.uid != frame.value.uid)
  }

  /** What ends up at the very back: the background if there is one, else the frame. */
  function Bottom(s: seq<SceneObj>, bg: Option<nat>): seq<SceneObj> {
    if Background(s, bg).Some? then [Background(s, bg).value]
    else if FindFrame(s).Some? then [FindFrame(s).value]
    else []
  }

  /** The frame, when it sits above the background. */
  function Middle(s: seq<SceneObj>, bg: Option<nat>): seq<SceneObj> {
    if Background(s, bg).Some? && FindFrame(s).Some? then [FindFrame(s).value] else []
  }

  /** Sending the background to the back keeps the first drawing frame. */
  lemma BackgroundToBack(s: seq<SceneObj>, b: nat)
    requires WellTagged(s, Some(b))
    ensures ToBack(s, b) == [Find(s, b).value] + Without(s, b)
    ensures FindFrame(ToBack(s, b)) == FindFrame(s)
    ensures FindFrame(s).Some? ==> FindFrame(s).value.uid != b
  {
    var bo := Find(s, b).value;
    var i := IndexOf(s, b);
    ToBackAt(s, i);
    WithoutAt(s, i);
    var w := Without(s, b);
    var f := FindFrame(s);
    FindFrameFilter(s, OtherThan(b));
    assert ([bo] + w)[1..] == w;
  }

  /** Sending an object that is not at the front to the back, in a list with unique ids. */
  lemma SecondToBack(bo: SceneObj, w: seq<SceneObj>, fo: SceneObj)
    requires UniqueUids([bo] + w) && fo in w
    ensures ToBack([bo] + w, fo.uid) == [fo, bo] + Without(w, fo.uid)
  {
    var k :| 0 <= k < |w| && w[k] == fo;
    ToBackInside([bo], w, k);
    WithoutAt(w, k);
    ConcatAssoc([fo], [bo], w[..k] + w[k + 1..]);
    assert [fo] + [bo] == [fo, bo];
  }

  /** Bringing the first object forward swaps it with the second. */
  lemma ForwardFirst(x: seq<SceneObj>)
    requires |x| >= 2
    ensures Forward(x, x[0].uid) == [x[1], x[0]] + x[2..]
  {
    assert IndexOf(x, x[0].uid) == 0;
  }

  /** With both a background and a frame, steps 1 and 2 give background, frame, the rest. */
  lemma BothToBack(s: seq<SceneObj>, b: nat)
    requires WellTagged(s, Some(b)) && FindFrame(s).Some?
    ensures var s1 := ToBack(s, b);
            var fu := FindFrame(s).value.uid;
            Forward(ToBack(s1, fu), fu)
            == [Find(s, b).value, FindFrame(s).value] + Filter(s, UntaggedTest(Some(b), FindFrame(s)))
  {
    BackgroundToBack(s, b);
    ToBackPermutes(s, b);
    var bo := Find(s, b).value;
    var f := FindFrame(s).value;
    var w := Without(s, b);
    FilterMembers(s, OtherThan(b));
    SecondToBack(bo, w, f);
    var rest := Without(w, f.uid);
    ForwardFirst([f, bo] + rest);
    assert ([f, bo] + rest)[2..] == rest;
    FilterCompose(s, OtherThan(b), OtherThan(f.uid), UntaggedTest(Some(b), FindFrame(s)));
  }

  /** The list after steps 1 and 2 of `maintainLayerOrder`. */
  function FirstTwo(s: seq<SceneObj>, bg: Option<nat>): seq<SceneObj> {
    var s1 := if bg.Some? then ToBack(s, bg.value) else s;
    var frame := FindFrame(s1);
    if frame.None? then s1
    else if bg.Some? then Forward(ToBack(s1, frame.value.uid), frame.value.uid)
    else ToBack(s1, frame.value.uid)
  }

  /** Steps 1 and 2 leave the background/frame at the back and everything else in order. */
  lemma FirstSteps(s: seq<SceneObj>, bg: Option<nat>)
    requires WellTagged(s, bg)
    ensures FirstTwo(s, bg) == Bottom(s, bg) + Middle(s, bg) + Filter(s, UntaggedTest(bg, FindFrame(s)))
  {
    if bg.Some? {
      FirstStepsWithBackground(s, bg.value);
    } else {
      FirstStepsWithoutBackground(s);
    }
  }

  /** `FirstSteps` when there is a background. */
  lemma FirstStepsWithBackground(s: seq<SceneObj>, b: nat)
    requires WellTagged(s, Some(b))
    ensures FirstTwo(s, Some(b))
         == Bottom(s, Some(b)) + Middle(s, Some(b)) + Filter(s, UntaggedTest(Some(b), FindFrame(s)))
  {
    if FindFrame(s).Some? {
      FirstStepsBoth(s, b);
      BothAtBottom(s, b);
    } else {
      FirstStepsBackgroundOnly(s, b);
    }
  }

  /** `FirstSteps` with a background and a frame. */
  lemma FirstStepsBoth(s: seq<SceneObj>, b: nat)
    requires WellTagged(s, Some(b)) && FindFrame(s).Some?
    ensures FirstTwo(s, Some(b))
         == [Find(s, b).value, FindFrame(s).value] + Filter(s, UntaggedTest(Some(b), FindFrame(s)))
  {
    BackgroundToBack(s, b);
    var s1 := ToBack(s, b);
    var fu := FindFrame(s).value.uid;
    assert FirstTwo(s, Some(b)) == Forward(ToBack(s1, fu), fu);
    BothToBack(s, b);
  }

  /** With a background and a frame, the background is at the bottom and the frame above it. */
  lemma BothAtBottom(s: seq<SceneObj>, b: nat)
    requires WellTagged(s, Some(b)) && FindFrame(s).Some?
    ensures Bottom(s, Some(b)) + Middle(s, Some(b)) == [Find(s, b).value, FindFrame(s).value]
  {
    assert Background(s, Some(b)) == Find(s, b);
  }

  /** `FirstSteps` with a background and no frame. */
  lemma FirstStepsBackgroundOnly(s: seq<SceneObj>, b: nat)
    requires WellTagged(s, Some(b)) && FindFrame(s).None?
    ensures FirstTwo(s, Some(b)) == [Find(s, b).value] + Filter(s, UntaggedTest(Some(b), None))
    ensures Bottom(s, Some(b)) + Middle(s, Some(b)) == [Find(s, b).value]
  {
    BackgroundToBack(s, b);
    BackgroundOnly(s, b);
  }

  /** `FirstSteps` when there is no background. */
  lemma FirstStepsWithoutBackground(s: seq<SceneObj>)
    requires WellTagged(s, None)
    ensures FirstTwo(s, None) == Bottom(s, None) + Middle(s, None) + Filter(s, UntaggedTest(None, FindFrame(s)))
  {
    if FindFrame(s).Some? {
      FrameOnly(s);
    } else {
      FilterKeepsAll(s, UntaggedTest(None, None));
    }
  }

  lemma BackgroundOnly(s: seq<SceneObj>, b: nat)
    requires WellTagged(s, Some(b)) && FindFrame(s).None?
    ensures ToBack(s, b) == [Find(s, b).value] + Filter(s, UntaggedTest(Some(b), None))
  {
    BackgroundToBack(s, b);
    FilterExt(s, OtherThan(b), UntaggedTest(Some(b), None));
  }

  lemma FrameOnly(s: seq<SceneObj>)
    requires WellTagged(s, None) && FindFrame(s).Some?
    ensures ToBack(s, FindFrame(s).value.uid)
         == [FindFrame(s).value] + Filter(s, UntaggedTest(None, FindFrame(s)))
  {
    var fu := FindFrame(s).value.uid;
    var i := IndexOf(s, fu);
    ToBackAt(s, i);
    WithoutAt(s, i);
    FilterExt(s, OtherThan(fu), UntaggedTest(None, FindFrame(s)));
  }

  /** Steps 1 and 2 only reorder the scene. */
  lemma FirstTwoPermutes(s: seq<SceneObj>, bg: Option<nat>)
    requires UniqueUids(s)
    ensures multiset(FirstTwo(s, bg)) == multiset(s)
    ensures UniqueUids(FirstTwo(s, bg))
  {
    var s1 := if bg.Some? then ToBack(s, bg.value) else s;
    if bg.Some? { ToBackPermutes(s, bg.value); }
    var frame := FindFrame(s1);
    if frame.Some? {
      ToBackPermutes(s1, frame.value.uid);
      ForwardPermutes(ToBack(s1, frame.value.uid), frame.value.uid);
    }
  }

  /** `maintainLayerOrder` only reorders the scene. */
  lemma LayerOrderPermutes(s: seq<SceneObj>, bg: Option<nat>)
    requires UniqueUids(s)
    ensures multiset(LayerOrder(s, bg)) == multiset(s)
    ensures UniqueUids(LayerOrder(s, bg))
  {
    FirstTwoPermutes(s, bg);
    var s2 := FirstTwo(s, bg);
    var s1 := if bg.Some? then ToBack(s, bg.value) else s;
    GridStepsPermute(s2, Uids(Filter(s2, GridFlag)), FindFrame(s1).Some? || bg.Some?);
  }

  /** No isGrid object is the background or the frame. */
  lemma GridsUntagged(s: seq<SceneObj>, bg: Option<nat>)
    requires WellTagged(s, bg)
    ensures forall x :: x in s ==> GridFlag(x) == (UntaggedTest(bg, FindFrame(s))(x) && GridFlag(x))
    ensures forall x :: x in s ==>
              ContentTest(bg, FindFrame(s))(x) == (UntaggedTest(bg, FindFrame(s))(x) && NotGridFlag(x))
    ensures forall x :: x in Bottom(s, bg) + Middle(s, bg) ==> !GridFlag(x)
  {
    var f := FindFrame(s);
    forall x | x in s && GridFlag(x) ensures UntaggedTest(bg, f)(x) {
      if bg.Some? && x.uid == bg.value { UidDetermines(s, x, Find(s, bg.value).value); }
      if f.Some? && x.uid == f.value.uid { UidDetermines(s, x, f.value); }
    }
  }

  /** Step 3 of `maintainLayerOrder`, started from the list of steps 1 and 2. */
  lemma LayerOrderUnfold(s: seq<SceneObj>, bg: Option<nat>)
    requires WellTagged(s, bg)
    ensures var s2 := FirstTwo(s, bg);
            LayerOrder(s, bg) == GridSteps(s2, Uids(Filter(s2, GridFlag)), |Bottom(s, bg)| == 1)
  {
    if bg.Some? { BackgroundToBack(s, bg.value); }
  }

  /** Step 3 on a list whose isGrid objects all lie in the part `t` after `h` and `m`. */
  lemma GridStepsAfter(h: seq<SceneObj>, m: seq<SceneObj>, t: seq<SceneObj>, forward: bool)
    requires |h| == (if forward then 1 else 0)
    requires UniqueUids(h + m + t)
    requires forall x :: x in h + m ==> !GridFlag(x)
    ensures var x := h + m + t;
            GridSteps(x, Uids(Filter(x, GridFlag)), forward)
            == h + Reverse(Filter(t, GridFlag)) + m + Filter(t, NotGridFlag)
  {
    GridsOnlyInTail(h + m, t);
    NoReversed(h, m, t, Filter(t, GridFlag));
    GridStepsShape(h, [], m, t, forward);
  }

  lemma GridsOnlyInTail(a: seq<SceneObj>, t: seq<SceneObj>)
    requires forall x :: x in a ==> !GridFlag(x)
    ensures Filter(a + t, GridFlag) == Filter(t, GridFlag)
  {
    FilterAppend(a, t, GridFlag);
    FilterDropsAll(a, GridFlag);
    assert [] + Filter(t, GridFlag) == Filter(t, GridFlag);
  }

  lemma NoReversed(h: seq<SceneObj>, m: seq<SceneObj>, t: seq<SceneObj>, g: seq<SceneObj>)
    ensures h + m + t == h + Reverse([]) + m + t && [] + g == g
  {
    assert Reverse([]) == [];
  }

  /**
   * What `maintainLayerOrder` does, in one equation: at the back the background (or, without
   * one, the frame), then the isGrid objects in reverse order, then the frame when there is
   * also a background, then every other object in its previous order.
   */
  lemma LayerOrderShape(s: seq<SceneObj>, bg: Option<nat>)
    requires WellTagged(s, bg)
    ensures LayerOrder(s, bg)
         == Bottom(s, bg) + Reverse(Filter(s, GridFlag)) + Middle(s, bg)
            + Filter(s, ContentTest(bg, FindFrame(s)))
  {
    var f := FindFrame(s);
    var h := Bottom(s, bg);
    var m := Middle(s, bg);
    var t := Filter(s, UntaggedTest(bg, f));
    LayerOrderUnfold(s, bg);
    FirstSteps(s, bg);
    FirstTwoPermutes(s, bg);
    GridsUntagged(s, bg);
    GridStepsAfter(h, m, t, |h| == 1);
    FilterCompose(s, UntaggedTest(bg, f), GridFlag, GridFlag);
    FilterCompose(s, UntaggedTest(bg, f), NotGridFlag, ContentTest(bg, f));
  }

  /** The background ends up at the very back; without one, the frame does. */
  lemma LayerOrderBottom(s: seq<SceneObj>, bg: Option<nat>)
    requires WellTagged(s, bg)
    ensures bg.Some? ==> |LayerOrder(s, bg)| > 0 && LayerOrder(s, bg)[0] == Find(s, bg.value).value
    ensures bg.None? && FindFrame(s).Some? ==>
              |LayerOrder(s, bg)| > 0 && LayerOrder(s, bg)[0] == FindFrame(s).value
  {
    LayerOrderShape(s, bg);
  }

  /**
   * With both a background and a frame, the isGrid objects sit between the two: positions
   * 1 to |grids| hold them in reverse order and the frame comes right after them.
   */
  lemma LayerOrderGridsBelowFrame(s: seq<SceneObj>, b: nat)
    requires WellTagged(s, Some(b)) && FindFrame(s).Some?
    ensures var r := LayerOrder(s, Some(b));
            var g := Filter(s, GridFlag);
            |r| > |g| + 1
            && (forall i :: 1 <= i <= |g| ==> r[i] == g[|g| - i])
            && r[|g| + 1] == FindFrame(s).value
  {
    LayerOrderShape(s, Some(b));
    BothTagged(s, b);
    BetweenTwo(LayerOrder(s, Some(b)), Find(s, b).value, Filter(s, GridFlag), FindFrame(s).value,
               Filter(s, ContentTest(Some(b), FindFrame(s))));
  }

  /** With both a background and a frame, the background is at the bottom and the frame above it. */
  lemma BothTagged(s: seq<SceneObj>, b: nat)
    requires WellTagged(s, Some(b)) && FindFrame(s).Some?
    ensures Bottom(s, Some(b)) == [Find(s, b).value] && Middle(s, Some(b)) == [FindFrame(s).value]
  {
  }

  lemma BetweenTwo(r: seq<SceneObj>, b: SceneObj, g: seq<SceneObj>, f: SceneObj, c: seq<SceneObj>)
    requires r == [b] + Reverse(g) + [f] + c
    ensures |r| > |g| + 1 && (forall i :: 1 <= i <= |g| ==> r[i] == g[|g| - i]) && r[|g| + 1] == f
  {
    ReverseAt(g);
  }

  /**
   * The background, the frame and the isGrid objects form a prefix of the new order, and every
   * other object follows in its previous relative order.
   */
  lemma LayerOrderKeepsContent(s: seq<SceneObj>, bg: Option<nat>)
    requires WellTagged(s, bg)
    ensures var r := LayerOrder(s, bg);
            var c := ContentTest(bg, FindFrame(s));
            var k := |r| - |Filter(s, c)|;
            0 <= k
            && (forall i :: 0 <= i < k ==> !c(r[i]))
            && r[k..] == Filter(s, c)
            && Filter(r, c) == Filter(s, c)
  {
    var c := ContentTest(bg, FindFrame(s));
    var front := Bottom(s, bg) + Reverse(Filter(s, GridFlag)) + Middle(s, bg);
    LayerOrderShape(s, bg);
    FrontNotContent(s, bg);
    FilterCompose(s, c, c, c);
    PrefixThenContent(LayerOrder(s, bg), front, Filter(s, c), c);
  }

  /** Nothing below the content is content. */
  lemma FrontNotContent(s: seq<SceneObj>, bg: Option<nat>)
    requires WellTagged(s, bg)
    ensures var c := ContentTest(bg, FindFrame(s));
            var front := Bottom(s, bg) + Reverse(Filter(s, GridFlag)) + Middle(s, bg);
            forall i :: 0 <= i < |front| ==> !c(front[i])
  {
    var c := ContentTest(bg, FindFrame(s));
    var g := Filter(s, GridFlag);
    FilterMembers(s, GridFlag);
    ReverseAt(g);
    forall i | 0 <= i < |Reverse(g)| ensures !c(Reverse(g)[i]) {
      assert Reverse(g)[i] in g;
    }
    NoneInParts(Bottom(s, bg), Reverse(g), Middle(s, bg), c);
  }

  lemma NoneInParts(a: seq<SceneObj>, b: seq<SceneObj>, m: seq<SceneObj>, c: SceneObj -> bool)
    requires forall i :: 0 <= i < |a| ==> !c(a[i])
    requires forall i :: 0 <= i < |b| ==> !c(b[i])
    requires forall i :: 0 <= i < |m| ==> !c(m[i])
    ensures forall i :: 0 <= i < |a + b + m| ==> !c((a + b + m)[i])
  {
  }

  /** A list made of non-content objects followed by content objects. */
  lemma PrefixThenContent(r: seq<SceneObj>, front: seq<SceneObj>, rest: seq<SceneObj>, c: SceneObj -> bool)
    requires r == front + rest && Filter(rest, c) == rest
    requires forall i :: 0 <= i < |front| ==> !c(front[i])
    ensures var k := |r| - |rest|;
            0 <= k && (forall i :: 0 <= i < k ==> !c(r[i])) && r[k..] == rest && Filter(r, c) == rest
  {
    FilterAppend(front, rest, c);
    FilterDropsAll(front, c);
    assert r[|front|..] == rest;
  }
}
