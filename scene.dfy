/**
 * The Fabric.js canvas reduced to what the editor relies on: an ordered list of scene
 * objects (index 0 is drawn first, i.e. at the back) and the few primitives the core calls.
 * A JavaScript object's identity is its `uid`; `new fabric.X(...)` draws a fresh uid.
 */
module Scene {
  import opened Common

  /** The editing mode, `appState.currentMode` / `window.currentMode`. */
  datatype Mode = Select | Place | Area | Draw | Text

  /** A `fabric.Rect` inside a building group, in group coordinates. */
  datatype Rect = Rect(left: real, top: real, width: real, height: real, fill: string)

  /** What kind of Fabric object a scene object is, with the kind-specific properties. */
  datatype Body =
    | Group(parts: seq<Rect>)
    | Line(x1: real, y1: real, x2: real, y2: real, stroke: string, strokeWidth: real)
    | Image(opacity: real)
    | Plain

  /**
   * A scene object with the properties the core reads or writes. The tags are independent
   * flags, as on Fabric objects: nothing stops an object from carrying several of them.
   * `objectType` and `buildingType` are "" when the JavaScript property is undefined.
   */
  datatype SceneObj = SceneObj(
    uid: nat, body: Body,
    left: real, top: real, width: real, height: real, angle: real,
    selectable: bool, evented: bool, visible: bool,
    excludeFromExport: bool, isBackground: bool, isGrid: bool,
    objectType: string, buildingType: string, buildingId: int, isPair: bool)

  /** A new Fabric object with Fabric's defaults: selectable, evented, visible, exported. */
  function NewObject(uid: nat, body: Body): (o: SceneObj)
    ensures o.uid == uid && o.body == body
    ensures o.selectable && o.evented && o.visible && !o.excludeFromExport
    ensures !o.isBackground && !o.isGrid && o.objectType == "" && o.buildingType == ""
  {
    SceneObj(uid, body, 0.0, 0.0, 0.0, 0.0, 0.0, true, true, true, false, false, false, "", "", 0, false)
  }

  /** `obj.buildingType` is truthy. */
  predicate HasBuildingType(o: SceneObj) {
    o.buildingType != ""
  }

  /** `obj.objectType === 'drawingFrame'`. */
  predicate IsDrawingFrame(o: SceneObj) {
    o.objectType == "drawingFrame"
  }

  predicate UniqueUids(s: seq<SceneObj>) {
    forall i, j :: 0 <= i < j < |s| ==> s[i].uid != s[j].uid
  }

  function Uids(s: seq<SceneObj>): (r: seq<nat>)
    ensures |r| == |s| && forall i :: 0 <= i < |s| ==> r[i] == s[i].uid
  {
    seq(|s|, i requires 0 <= i < |s| => s[i].uid)
  }

  /** The objects of `s` that satisfy `p`, in order (`Array.prototype.filter`). */
  function Filter(s: seq<SceneObj>, p: SceneObj -> bool): seq<SceneObj>
  {
    if s == [] then [] else (if p(s[0]) then [s[0]] else []) + Filter(s[1..], p)
  }

  lemma {:induction false} FilterAppend(a: seq<SceneObj>, b: seq<SceneObj>, p: SceneObj -> bool)
    ensures Filter(a + b, p) == Filter(a, p) + Filter(b, p)
  {
    if a != [] {
      assert (a + b)[0] == a[0];
      assert (a + b)[1..] == a[1..] + b;
      FilterAppend(a[1..], b, p);
      var h := if p(a[0]) then [a[0]] else [];
      assert Filter(a + b, p) == h + Filter(a[1..] + b, p);
      assert Filter(a, p) == h + Filter(a[1..], p);
    } else {
      assert a + b == b;
    }
  }

  lemma {:induction false} FilterMembers(s: seq<SceneObj>, p: SceneObj -> bool)
    ensures forall x :: x in Filter(s, p) <==> x in s && p(x)
    ensures |Filter(s, p)| <= |s|
  {
    if s != [] {
      FilterMembers(s[1..], p);
      assert forall x :: x in s <==> x == s[0] || x in s[1..];
    }
  }

  lemma {:induction false} FilterKeepsAll(s: seq<SceneObj>, p: SceneObj -> bool)
    requires forall i :: 0 <= i < |s| ==> p(s[i])
    ensures Filter(s, p) == s
  {
    if s != [] {
      FilterKeepsAll(s[1..], p);
    }
  }

  lemma {:induction false} FilterDropsAll(s: seq<SceneObj>, p: SceneObj -> bool)
    requires forall i :: 0 <= i < |s| ==> !p(s[i])
    ensures Filter(s, p) == []
  {
    if s != [] {
      FilterDropsAll(s[1..], p);
    }
  }

  /** Filtering keeps identities unique. */
  lemma {:induction false} FilterUnique(s: seq<SceneObj>, p: SceneObj -> bool)
    requires UniqueUids(s)
    ensures UniqueUids(Filter(s, p))
    ensures forall x :: x in Filter(s, p) ==> x in s
  {
    if s != [] {
      FilterUnique(s[1..], p);
      FilterMembers(s[1..], p);
      var t := Filter(s[1..], p);
      assert forall x :: x in t ==> x in s[1..];
      if p(s[0]) {
        forall j | 0 <= j < |t| ensures s[0].uid != t[j].uid {
          assert t[j] in s[1..];
          var k :| 0 <= k < |s[1..]| && s[1..][k] == t[j];
          assert s[k + 1] == t[j];
        }
      }
    }
  }

  /** Splitting by `p` and by its negation `q` loses nothing. */
  lemma {:induction false} FilterPartition(s: seq<SceneObj>, p: SceneObj -> bool, q: SceneObj -> bool)
    requires forall x :: q(x) == !p(x)
    ensures |Filter(s, p)| + |Filter(s, q)| == |s|
    ensures multiset(Filter(s, p)) + multiset(Filter(s, q)) == multiset(s)
  {
    if s != [] {
      FilterPartition(s[1..], p, q);
      assert s == [s[0]] + s[1..];
    }
  }

  /** Two tests that agree on every object filter alike. */
  lemma {:induction false} FilterExt(s: seq<SceneObj>, p: SceneObj -> bool, q: SceneObj -> bool)
    requires forall x :: x in s ==> p(x) == q(x)
    ensures Filter(s, p) == Filter(s, q)
  {
    if s != [] {
      FilterExt(s[1..], p, q);
    }
  }

  /** Filtering twice is filtering once by the conjunction. */
  lemma {:induction false} FilterCompose(s: seq<SceneObj>, p: SceneObj -> bool, q: SceneObj -> bool,
                                         r: SceneObj -> bool)
    requires forall x :: x in s ==> r(x) == (p(x) && q(x))
    ensures Filter(Filter(s, p), q) == Filter(s, r)
  {
    if s != [] {
      var hp := if p(s[0]) then [s[0]] else [];
      FilterAppend(hp, Filter(s[1..], p), q);
      FilterCompose(s[1..], p, q, r);
      if p(s[0]) {
        assert Filter(hp, q) == (if q(s[0]) then [s[0]] else []) + Filter([], q);
      }
    }
  }

  /** The test "is not the object with identity `u`". */
  function OtherThan(u: nat): SceneObj -> bool {
    (o: SceneObj) => o.uid != u
  }

  /** `s` without the object whose identity is `u` (`canvas.remove`). */
  function Without(s: seq<SceneObj>, u: nat): seq<SceneObj> {
    Filter(s, OtherThan(u))
  }

  /** The position of the object with identity `u`, or -1 (`indexOf`). */
  function IndexOf(s: seq<SceneObj>, u: nat): (i: int)
    ensures -1 <= i < |s|
    ensures i >= 0 ==> s[i].uid == u && forall j :: 0 <= j < i ==> s[j].uid != u
    ensures i == -1 ==> forall j :: 0 <= j < |s| ==> s[j].uid != u
  {
    if s == [] then -1
    else if s[0].uid == u then 0
    else var k := IndexOf(s[1..], u); if k == -1 then -1 else k + 1
  }

  /** The object with identity `u`, if it is on the canvas. */
  function Find(s: seq<SceneObj>, u: nat): (r: Option<SceneObj>)
    ensures r.Some? <==> u in Uids(s)
    ensures r.Some? ==> r.value in s && r.value.uid == u
  {
    var i := IndexOf(s, u);
    if i >= 0 then Some(s[i]) else None
  }

  /** Removing the only object with identity `u`, at position i. */
  lemma {:induction false} WithoutAt(s: seq<SceneObj>, i: nat)
    requires UniqueUids(s) && i < |s|
    ensures Without(s, s[i].uid) == s[..i] + s[i+1..]
  {
    var u := s[i].uid;
    assert s == s[..i] + [s[i]] + s[i+1..];
    FilterAppend(s[..i] + [s[i]], s[i+1..], OtherThan(u));
    FilterAppend(s[..i], [s[i]], OtherThan(u));
    FilterKeepsAll(s[..i], OtherThan(u));
    FilterKeepsAll(s[i+1..], OtherThan(u));
  }

  /** Removing an identity that is absent changes nothing. */
  lemma WithoutAbsent(s: seq<SceneObj>, u: nat)
    requires u !in Uids(s)
    ensures Without(s, u) == s
  {
    FilterKeepsAll(s, OtherThan(u));
  }

  /** An identity is in `Uids(s)` exactly when some object of s carries it. */
  lemma InUids(s: seq<SceneObj>, x: nat)
    ensures x in Uids(s) <==> exists o :: o in s && o.uid == x
  {
    if x in Uids(s) {
      var i :| 0 <= i < |s| && Uids(s)[i] == x;
      assert s[i] in s;
    }
    if exists o :: o in s && o.uid == x {
      var o :| o in s && o.uid == x;
      var i :| 0 <= i < |s| && s[i] == o;
      assert Uids(s)[i] == x;
    }
  }

  /** After `canvas.remove`, the identities left are the old ones other than u. */
  lemma UidsWithout(s: seq<SceneObj>, u: nat, x: nat)
    ensures x in Uids(Without(s, u)) <==> x in Uids(s) && x != u
  {
    InUids(s, x);
    InUids(Without(s, u), x);
    FilterMembers(s, OtherThan(u));
  }

  /**
   * The selection once `canvas.remove` has taken the object `u` off `objects`: Fabric
   * discards the active object when that object is removed, so a selection of exactly u,
   * which was on the canvas, becomes empty; any other selection stays as it was.
   */
  function Deselected(active: seq<nat>, objects: seq<SceneObj>, u: nat): seq<nat> {
    if active == [u] && u in Uids(objects) then [] else active
  }

  /**
   * The selection after the objects of `before` that are missing from `after` have been
   * removed: emptied exactly when it was one object that was on the canvas and is gone.
   */
  function SelectionAfter(active: seq<nat>, before: seq<SceneObj>, after: seq<SceneObj>): seq<nat> {
    if |active| == 1 && active[0] in Uids(before) && active[0] !in Uids(after) then [] else active
  }

  /**
   * One more `canvas.remove` extends `SelectionAfter`, as long as the selected identity was
   * not added since `s0`; it still is not afterwards.
   */
  lemma DeselectStep(a: seq<nat>, s0: seq<SceneObj>, s1: seq<SceneObj>, u: nat)
    requires |a| == 1 && a[0] in Uids(s1) ==> a[0] in Uids(s0)
    ensures Deselected(SelectionAfter(a, s0, s1), s1, u) == SelectionAfter(a, s0, Without(s1, u))
    ensures |a| == 1 && a[0] in Uids(Without(s1, u)) ==> a[0] in Uids(s0)
  {
    if |a| == 1 {
      UidsWithout(s1, u, a[0]);
    }
  }

  /** Adding an object other than the selected one leaves `SelectionAfter` as it was. */
  lemma SelectionAfterAdd(a: seq<nat>, s0: seq<SceneObj>, s1: seq<SceneObj>, o: SceneObj)
    requires |a| == 1 ==> a[0] != o.uid
    ensures SelectionAfter(a, s0, s1 + [o]) == SelectionAfter(a, s0, s1)
    ensures |a| == 1 && a[0] in Uids(s1 + [o]) ==> a[0] in Uids(s1)
  {
    assert Uids(s1 + [o]) == Uids(s1) + [o.uid];
  }

  /**
   * `canvas.sendToBack(obj)`: take the object out and put it at index 0. Every caller passes
   * an object on the canvas; for an absent identity the list stays as it is, where Fabric
   * would insert the stale object.
   */
  function ToBack(s: seq<SceneObj>, u: nat): seq<SceneObj> {
    match Find(s, u)
    case Some(o) => [o] + Without(s, u)
    case None => s
  }

  /**
   * `canvas.bringForward(obj)`: swap the object with the one just above it. Every caller
   * passes an object on the canvas; for an absent identity the list stays as it is, where
   * Fabric would insert the stale object.
   */
  function Forward(s: seq<SceneObj>, u: nat): (r: seq<SceneObj>)
    ensures |r| == |s|
  {
    var i := IndexOf(s, u);
    if 0 <= i < |s| - 1 then s[..i] + [s[i + 1], s[i]] + s[i + 2..] else s
  }

  /** `obj.set(...)`: the object with the same identity takes the new property values. */
  function Updated(s: seq<SceneObj>, o: SceneObj): (r: seq<SceneObj>)
    ensures |r| == |s|
    ensures forall i :: 0 <= i < |s| ==> r[i] == (if s[i].uid == o.uid then o else s[i])
  {
    seq(|s|, i requires 0 <= i < |s| => if s[i].uid == o.uid then o else s[i])
  }

  /** Two orderings of the same objects have the same members. */
  lemma SameMembers(a: seq<SceneObj>, b: seq<SceneObj>)
    requires multiset(a) == multiset(b)
    ensures forall o :: o in a <==> o in b
  {
    assert forall o :: o in a <==> o in multiset(a);
    assert forall o :: o in b <==> o in multiset(b);
  }

  /** With unique identities, updating the object at position i replaces that position only. */
  lemma UpdatedAt(s: seq<SceneObj>, i: nat, o: SceneObj)
    requires UniqueUids(s) && i < |s| && o.uid == s[i].uid
    ensures Updated(s, o) == s[i := o]
  {
    assert forall k :: 0 <= k < |s| && k != i ==> s[k].uid != o.uid;
  }

  /** Moving the object at position i to the front keeps identities unique. */
  lemma MoveToFrontUnique(s: seq<SceneObj>, i: nat)
    requires UniqueUids(s) && i < |s|
    ensures UniqueUids([s[i]] + (s[..i] + s[i+1..]))
  {
    var t := s[..i] + s[i+1..];
    var r := [s[i]] + t;
    assert forall k :: 0 <= k < |t| ==> t[k] == s[if k < i then k else k + 1];
    forall a, b | 0 <= a < b < |r| ensures r[a].uid != r[b].uid {
      var ib := if b - 1 < i then b - 1 else b;
      assert r[b] == t[b - 1] == s[ib];
      if a > 0 {
        var ia := if a - 1 < i then a - 1 else a;
        assert r[a] == t[a - 1] == s[ia];
        assert ia < ib;
      } else {
        assert ib != i;
      }
    }
  }

  lemma ToBackPermutes(s: seq<SceneObj>, u: nat)
    requires UniqueUids(s)
    ensures multiset(ToBack(s, u)) == multiset(s)
    ensures UniqueUids(ToBack(s, u))
    ensures u in Uids(s) ==> |ToBack(s, u)| > 0 && ToBack(s, u)[0].uid == u
  {
    var i := IndexOf(s, u);
    if i >= 0 {
      WithoutAt(s, i);
      assert ToBack(s, u) == [s[i]] + (s[..i] + s[i+1..]);
      assert s == s[..i] + [s[i]] + s[i+1..];
      MoveToFrontUnique(s, i);
    }
  }

  /** Swapping neighbours i and i + 1 keeps identities unique. */
  lemma SwapUnique(s: seq<SceneObj>, i: nat)
    requires UniqueUids(s) && i + 1 < |s|
    ensures UniqueUids(s[..i] + [s[i + 1], s[i]] + s[i + 2..])
    ensures multiset(s[..i] + [s[i + 1], s[i]] + s[i + 2..]) == multiset(s)
  {
    var r := s[..i] + [s[i + 1], s[i]] + s[i + 2..];
    assert forall k :: 0 <= k < |r| ==> r[k] == s[if k == i then i + 1 else if k == i + 1 then i else k];
    assert s == s[..i] + [s[i], s[i + 1]] + s[i + 2..];
    assert multiset([s[i + 1], s[i]]) == multiset([s[i], s[i + 1]]);
  }

  lemma ForwardPermutes(s: seq<SceneObj>, u: nat)
    requires UniqueUids(s)
    ensures multiset(Forward(s, u)) == multiset(s)
    ensures UniqueUids(Forward(s, u))
  {
    var i := IndexOf(s, u);
    if 0 <= i < |s| - 1 {
      SwapUnique(s, i);
      assert Forward(s, u) == s[..i] + [s[i + 1], s[i]] + s[i + 2..];
    } else {
      assert Forward(s, u) == s;
    }
  }

  /** The list back to front. */
  function Reverse(s: seq<SceneObj>): (r: seq<SceneObj>)
    ensures |r| == |s|
  {
    if s == [] then [] else [s[|s| - 1]] + Reverse(s[..|s| - 1])
  }

  lemma {:induction false} ReverseAt(s: seq<SceneObj>)
    ensures forall i :: 0 <= i < |s| ==> Reverse(s)[i] == s[|s| - 1 - i]
  {
    if s != [] {
      ReverseAt(s[..|s| - 1]);
    }
  }

  lemma ReverseSnoc(d: seq<SceneObj>, g: SceneObj)
    ensures Reverse(d + [g]) == [g] + Reverse(d)
  {
    assert (d + [g])[..|d|] == d;
  }

  /** `sendToBack` of the object at position k. */
  lemma ToBackAt(x: seq<SceneObj>, k: nat)
    requires UniqueUids(x) && k < |x|
    ensures ToBack(x, x[k].uid) == [x[k]] + (x[..k] + x[k+1..])
  {
    WithoutAt(x, k);
    assert IndexOf(x, x[k].uid) == k;
  }

  /** `sendToBack` of the first object of t, which lies behind the prefix p. */
  lemma ToBackAfter(p: seq<SceneObj>, t: seq<SceneObj>)
    requires UniqueUids(p + t) && t != []
    ensures ToBack(p + t, t[0].uid) == [t[0]] + p + t[1..]
  {
    var x := p + t;
    var k := |p|;
    assert x[k] == t[0] && x[..k] == p && x[k+1..] == t[1..];
    ToBackAt(x, k);
  }

  /** Not one of the identities `us`. */
  function NotIn(us: seq<nat>): SceneObj -> bool {
    (o: SceneObj) => o.uid !in us
  }

  /** `us.forEach(u => canvas.remove(u))`. */
  function WithoutAll(s: seq<SceneObj>, us: seq<nat>): seq<SceneObj> {
    Filter(s, NotIn(us))
  }

  /** Removing one more identity. */
  lemma WithoutAllSnoc(s: seq<SceneObj>, us: seq<nat>, u: nat)
    ensures Without(WithoutAll(s, us), u) == WithoutAll(s, us + [u])
  {
    FilterCompose(s, NotIn(us), OtherThan(u), NotIn(us + [u]));
  }

  /** `us.forEach(u => canvas.sendToBack(u))`. */
  function ToBackAll(s: seq<SceneObj>, us: seq<nat>): seq<SceneObj>
    decreases |us|
  {
    if us == [] then s else ToBackAll(ToBack(s, us[0]), us[1..])
  }

  lemma {:induction false} ToBackAllSnoc(s: seq<SceneObj>, us: seq<nat>, u: nat)
    ensures ToBackAll(s, us + [u]) == ToBack(ToBackAll(s, us), u)
    decreases |us|
  {
    if us == [] {
      assert ([u])[1..] == [];
    } else {
      assert (us + [u])[1..] == us[1..] + [u];
      ToBackAllSnoc(ToBack(s, us[0]), us[1..], u);
    }
  }

  lemma {:induction false} ToBackAllPermutes(s: seq<SceneObj>, us: seq<nat>)
    requires UniqueUids(s)
    ensures multiset(ToBackAll(s, us)) == multiset(s) && UniqueUids(ToBackAll(s, us))
    decreases |us|
  {
    if us != [] {
      ToBackPermutes(s, us[0]);
      ToBackAllPermutes(ToBack(s, us[0]), us[1..]);
    }
  }

  /** The objects of `s` with the identities `us`, in the order of `us`; absent ones skipped. */
  function Pick(s: seq<SceneObj>, us: seq<nat>): seq<SceneObj>
    decreases |us|
  {
    if us == [] then []
    else (match Find(s, us[0]) case Some(o) => [o] case None => []) + Pick(s, us[1..])
  }

  lemma FindCons(o: SceneObj, t: seq<SceneObj>, u: nat)
    ensures Find([o] + t, u) == if o.uid == u then Some(o) else Find(t, u)
  {
    var s := [o] + t;
    assert s[0] == o && s[1..] == t;
    var k := IndexOf(t, u);
    if o.uid != u {
      assert IndexOf(s, u) == if k == -1 then -1 else k + 1;
      if k >= 0 {
        assert s[k + 1] == t[k];
      }
    }
  }

  /** Removing one object leaves the others findable. */
  lemma {:induction false} FindWithout(s: seq<SceneObj>, v: nat, u: nat)
    requires u != v
    ensures Find(Without(s, v), u) == Find(s, u)
  {
    if s != [] {
      var w := Without(s[1..], v);
      FindCons(s[0], s[1..], u);
      assert s == [s[0]] + s[1..];
      if s[0].uid != v {
        assert Without(s, v) == [s[0]] + w;
        FindCons(s[0], w, u);
        if s[0].uid != u {
          FindWithout(s[1..], v, u);
        }
      } else {
        assert Without(s, v) == w;
        FindWithout(s[1..], v, u);
      }
    }
  }

  lemma {:induction false} PickWithout(s: seq<SceneObj>, v: nat, us: seq<nat>)
    requires v !in us
    ensures Pick(Without(s, v), us) == Pick(s, us)
    decreases |us|
  {
    if us != [] {
      FindWithout(s, v, us[0]);
      PickWithout(s, v, us[1..]);
    }
  }

  /**
   * Sending the objects `us` to the back one after the other, starting from `Reverse(d) + m`:
   * they end up behind `d`, in reverse order, and the rest of `m` keeps its order.
   */
  lemma {:induction false} ToBackAllShape(d: seq<SceneObj>, m: seq<SceneObj>, us: seq<nat>)
    requires UniqueUids(Reverse(d) + m) && Distinct(us)
    requires forall x :: x in d ==> x.uid !in us
    ensures ToBackAll(Reverse(d) + m, us) == Reverse(d + Pick(m, us)) + WithoutAll(m, us)
    decreases |us|, 1
  {
    if us == [] {
      assert d + [] == d;
      FilterKeepsAll(m, NotIn(us));
    } else if IndexOf(m, us[0]) >= 0 {
      ToBackAllPresent(d, m, us);
    } else {
      ToBackAllAbsent(d, m, us);
    }
  }

  lemma DistinctTail(us: seq<nat>)
    requires Distinct(us) && us != []
    ensures Distinct(us[1..]) && us[0] !in us[1..]
  {
    assert forall k :: 0 <= k < |us[1..]| ==> us[1..][k] == us[k + 1];
  }

  lemma {:induction false} ToBackAllPresent(d: seq<SceneObj>, m: seq<SceneObj>, us: seq<nat>)
    requires UniqueUids(Reverse(d) + m) && Distinct(us)
    requires forall x :: x in d ==> x.uid !in us
    requires us != [] && IndexOf(m, us[0]) >= 0
    ensures ToBackAll(Reverse(d) + m, us) == Reverse(d + Pick(m, us)) + WithoutAll(m, us)
    decreases |us|, 0
  {
    var u := us[0];
    var i := IndexOf(m, u);
    var x := Reverse(d) + m;
    DistinctTail(us);
    var d' := d + [m[i]];
    var m' := Without(m, u);
    assert ToBack(x, u) == Reverse(d') + m' by {
      ToBackStep(d, m, i);
    }
    assert UniqueUids(Reverse(d') + m') by {
      ToBackPermutes(x, u);
    }
    assert forall y :: y in d' ==> y.uid !in us[1..] by {
      assert forall v :: v in us[1..] ==> v in us;
    }
    ToBackAllShape(d', m', us[1..]);
    assert Pick(m', us[1..]) == Pick(m, us[1..]) by {
      PickWithout(m, u, us[1..]);
    }
    assert Pick(m, us) == [m[i]] + Pick(m, us[1..]) by {
      assert Find(m, u) == Some(m[i]);
    }
    SnocAssoc(d, m[i], Pick(m, us[1..]));
    FilterCompose(m, OtherThan(u), NotIn(us[1..]), NotIn(us));
  }

  lemma SnocAssoc(a: seq<SceneObj>, x: SceneObj, b: seq<SceneObj>)
    ensures a + [x] + b == a + ([x] + b)
  {
  }

  lemma {:induction false} ToBackAllAbsent(d: seq<SceneObj>, m: seq<SceneObj>, us: seq<nat>)
    requires UniqueUids(Reverse(d) + m) && Distinct(us)
    requires forall x :: x in d ==> x.uid !in us
    requires us != [] && IndexOf(m, us[0]) < 0
    ensures ToBackAll(Reverse(d) + m, us) == Reverse(d + Pick(m, us)) + WithoutAll(m, us)
    decreases |us|, 0
  {
    var u := us[0];
    var x := Reverse(d) + m;
    DistinctTail(us);
    ReverseAt(d);
    assert u !in Uids(x) by {
      forall k | 0 <= k < |x| ensures x[k].uid != u {
        if k < |Reverse(d)| {
          assert x[k] == d[|d| - 1 - k];
        } else {
          assert x[k] == m[k - |Reverse(d)|];
        }
      }
    }
    ToBackAllShape(d, m, us[1..]);
    assert Pick(m, us) == Pick(m, us[1..]);
    FilterExt(m, NotIn(us[1..]), NotIn(us));
  }

  /** The step of `ToBackAllShape`: the object at position i of `m` goes behind `d`. */
  lemma ToBackStep(d: seq<SceneObj>, m: seq<SceneObj>, i: nat)
    requires UniqueUids(Reverse(d) + m) && i < |m|
    ensures ToBack(Reverse(d) + m, m[i].uid) == Reverse(d + [m[i]]) + Without(m, m[i].uid)
    ensures UniqueUids(m)
  {
    ToBackInside(Reverse(d), m, i);
    WithoutAt(m, i);
    ReverseSnoc(d, m[i]);
    ConcatAssoc([m[i]], Reverse(d), m[..i] + m[i + 1..]);
  }

  /** `sendToBack` of the object at position i of the part m behind a. */
  lemma ToBackInside(a: seq<SceneObj>, m: seq<SceneObj>, i: nat)
    requires UniqueUids(a + m) && i < |m|
    ensures ToBack(a + m, m[i].uid) == [m[i]] + (a + (m[..i] + m[i + 1..]))
    ensures UniqueUids(m)
  {
    var x := a + m;
    var k := |a| + i;
    assert x[k] == m[i];
    ToBackAt(x, k);
    assert x[..k] + x[k + 1..] == a + (m[..i] + m[i + 1..]);
    forall p, q | 0 <= p < q < |m| ensures m[p].uid != m[q].uid {
      assert x[|a| + p] == m[p] && x[|a| + q] == m[q];
    }
  }

  lemma ConcatAssoc(a: seq<SceneObj>, b: seq<SceneObj>, c: seq<SceneObj>)
    ensures a + (b + c) == a + b + c
  {
  }

  /** The parts of a list with unique identities have unique identities, and none in common. */
  lemma UniqueParts(a: seq<SceneObj>, m: seq<SceneObj>)
    requires UniqueUids(a + m)
    ensures UniqueUids(a) && UniqueUids(m)
    ensures forall i, k :: 0 <= i < |a| && 0 <= k < |m| ==> a[i].uid != m[k].uid
  {
    var x := a + m;
    forall p, q | 0 <= p < q < |a| ensures a[p].uid != a[q].uid {
      assert x[p] == a[p] && x[q] == a[q];
    }
    forall p, q | 0 <= p < q < |m| ensures m[p].uid != m[q].uid {
      assert x[|a| + p] == m[p] && x[|a| + q] == m[q];
    }
    forall i, k | 0 <= i < |a| && 0 <= k < |m| ensures a[i].uid != m[k].uid {
      assert x[i] == a[i] && x[|a| + k] == m[k];
    }
  }

  /** Sending the objects `us` to the back one after the other, from any list. */
  lemma ToBackAllFromStart(m: seq<SceneObj>, us: seq<nat>)
    requires UniqueUids(m) && Distinct(us)
    ensures ToBackAll(m, us) == Reverse(Pick(m, us)) + WithoutAll(m, us)
  {
    assert Reverse([]) == [];
    assert Reverse([]) + m == m;
    ToBackAllShape([], m, us);
    assert [] + Pick(m, us) == Pick(m, us);
  }

  /** Identities determine objects in a scene with unique identities. */
  lemma UidDetermines(s: seq<SceneObj>, x: SceneObj, y: SceneObj)
    requires UniqueUids(s) && x in s && y in s && x.uid == y.uid
    ensures x == y
  {
    var i :| 0 <= i < |s| && s[i] == x;
    var j :| 0 <= j < |s| && s[j] == y;
    assert !(i < j) && !(j < i);
  }

  /** Unique identities make the identity list duplicate-free. */
  lemma UniqueDistinct(t: seq<SceneObj>)
    requires UniqueUids(t)
    ensures Distinct(Uids(t))
  {
  }

  /** Picking the identities of objects of `s` gives those objects back. */
  lemma {:induction false} PickOwn(s: seq<SceneObj>, t: seq<SceneObj>)
    requires UniqueUids(s) && forall x :: x in t ==> x in s
    ensures Pick(s, Uids(t)) == t
  {
    if t != [] {
      assert t[0] in s;
      var k :| 0 <= k < |s| && s[k] == t[0];
      assert Uids(s)[k] == t[0].uid;
      var o := Find(s, t[0].uid).value;
      UidDetermines(s, o, t[0]);
      assert Uids(t)[1..] == Uids(t[1..]);
      PickOwn(s, t[1..]);
    }
  }

  /**
   * The Fabric canvas: its object list, the `selection` and `isDrawingMode` switches, the
   * identities of the active (selected) objects, and the next fresh identity.
   */
  class Canvas {
    var objects: seq<SceneObj>
    var selection: bool
    var isDrawingMode: bool
    var active: seq<nat>
    var nextUid: nat

    /** Identities are unique, and those of the objects and of the selection have been handed out. */
    ghost predicate Valid()
      reads this
    {
      UniqueUids(objects) && (forall o :: o in objects ==> o.uid < nextUid)
      && forall a :: a in active ==> a < nextUid
    }

    constructor ()
      ensures Valid() && objects == [] && selection && !isDrawingMode && active == []
    {
      objects := [];
      selection := true;
      isDrawingMode := false;
      active := [];
      nextUid := 0;
    }

    /** Allocating a new Fabric object: an identity no object on the canvas has. */
    method NewUid() returns (u: nat)
      requires Valid()
      modifies this`nextUid
      ensures Valid() && u == old(nextUid) && nextUid == u + 1
      ensures u !in Uids(objects)
    {
      u := nextUid;
      nextUid := nextUid + 1;
      assert forall i :: 0 <= i < |objects| ==> objects[i] in objects;
    }

    /** `canvas.add(o)`: o goes on top. */
    method Add(o: SceneObj)
      requires Valid() && o.uid < nextUid && o.uid !in Uids(objects)
      modifies this`objects
      ensures Valid() && objects == old(objects) + [o]
    {
      objects := objects + [o];
      forall i, j | 0 <= i < j < |objects| ensures objects[i].uid != objects[j].uid {
        if j == |objects| - 1 {
          assert old(objects)[i].uid == Uids(old(objects))[i];
        }
      }
    }

    /** `canvas.remove(obj)`, which also discards obj when it is the active object. */
    method Remove(u: nat)
      requires Valid()
      modifies this`objects, this`active
      ensures Valid() && objects == Without(old(objects), u)
      ensures active == Deselected(old(active), old(objects), u)
    {
      FilterUnique(objects, OtherThan(u));
      active := Deselected(active, objects, u);
      objects := Without(objects, u);
    }

    /** `canvas.sendToBack(obj)`. */
    method SendToBack(u: nat)
      requires Valid()
      modifies this`objects
      ensures Valid() && objects == ToBack(old(objects), u)
    {
      ToBackPermutes(objects, u);
      SameMembers(objects, ToBack(objects, u));
      objects := ToBack(objects, u);
    }

    /** `canvas.bringForward(obj)`. */
    method BringForward(u: nat)
      requires Valid()
      modifies this`objects
      ensures Valid() && objects == Forward(old(objects), u)
    {
      ForwardPermutes(objects, u);
      SameMembers(objects, Forward(objects, u));
      objects := Forward(objects, u);
    }

    /** `canvas.discardActiveObject()`: nothing is selected any more. */
    method DiscardActiveObject()
      modifies this`active
      ensures active == []
    {
      active := [];
    }

    /** `obj.set(...)` on the object with identity `o.uid`. */
    method SetObject(o: SceneObj)
      requires Valid() && o.uid < nextUid
      modifies this`objects
      ensures Valid() && objects == Updated(old(objects), o)
    {
      objects := Updated(objects, o);
    }
  }
}
