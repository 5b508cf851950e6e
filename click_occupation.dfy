/**
 * The editor's click occupations: what the current pointer gesture means and
 * the state it carries from pointer-down to pointer-up.
 */
module ClickOccupation {
  import opened Values
  import opened Track

  // ---------------------------------------------------------------------------
  // Selection extents (`left`, `right`, `top`, `bottom` of SelectionDrag)
  // ---------------------------------------------------------------------------

  /** `minBy { key }` followed by reading the key: `None` is the "Nothing in selection" error. */
  function MinOf(es: seq<Entity>, key: Rect -> real): (r: Option<real>)
    ensures r.None? <==> es == []
    ensures r.Some? ==> forall i :: 0 <= i < |es| ==> r.value <= key(es[i].bounds)
    ensures r.Some? ==> exists i :: 0 <= i < |es| && r.value == key(es[i].bounds)
  {
    if es == [] then None
    else
      match MinOf(es[1..], key)
      case None => Some(key(es[0].bounds))
      case Some(m) =>
        assert forall i :: 1 <= i < |es| ==> es[i] == es[1..][i - 1];
        if key(es[0].bounds) <= m then Some(key(es[0].bounds))
        else
          assert exists i :: 0 <= i < |es[1..]| && m == key(es[1..][i].bounds);
          Some(m)
  }

  /** `maxBy { key }` followed by reading the key. */
  function MaxOf(es: seq<Entity>, key: Rect -> real): (r: Option<real>)
    ensures r.None? <==> es == []
    ensures r.Some? ==> forall i :: 0 <= i < |es| ==> key(es[i].bounds) <= r.value
    ensures r.Some? ==> exists i :: 0 <= i < |es| && r.value == key(es[i].bounds)
  {
    if es == [] then None
    else
      match MaxOf(es[1..], key)
      case None => Some(key(es[0].bounds))
      case Some(m) =>
        assert forall i :: 1 <= i < |es| ==> es[i] == es[1..][i - 1];
        if key(es[0].bounds) >= m then Some(key(es[0].bounds))
        else
          assert exists i :: 0 <= i < |es[1..]| && m == key(es[1..][i].bounds);
          Some(m)
  }

  function LeftOf(sel: seq<Entity>): (r: Option<real>)
    ensures r.None? <==> sel == []
    ensures r.Some? ==> forall e :: e in sel ==> r.value <= e.bounds.x
    ensures r.Some? ==> exists e :: e in sel && r.value == e.bounds.x
  {
    MinOf(sel, (b: Rect) => b.x)
  }

  function RightOf(sel: seq<Entity>): (r: Option<real>)
    ensures r.None? <==> sel == []
    ensures r.Some? ==> forall e :: e in sel ==> e.bounds.x + e.bounds.width <= r.value
    ensures r.Some? ==> exists e :: e in sel && r.value == e.bounds.x + e.bounds.width
  {
    MaxOf(sel, (b: Rect) => b.x + b.width)
  }

  function TopOf(sel: seq<Entity>): (r: Option<real>)
    ensures r.None? <==> sel == []
    ensures r.Some? ==> forall e :: e in sel ==> e.bounds.y + e.bounds.height <= r.value
    ensures r.Some? ==> exists e :: e in sel && r.value == e.bounds.y + e.bounds.height
  {
    MaxOf(sel, (b: Rect) => b.y + b.height)
  }

  function BottomOf(sel: seq<Entity>): (r: Option<real>)
    ensures r.None? <==> sel == []
    ensures r.Some? ==> forall e :: e in sel ==> r.value <= e.bounds.y
    ensures r.Some? ==> exists e :: e in sel && r.value == e.bounds.y
  {
    MinOf(sel, (b: Rect) => b.y)
  }

  // ---------------------------------------------------------------------------
  // Selection membership, special entities and the delete zone
  // ---------------------------------------------------------------------------

  /**
   * The entities of the collection whose identity is (`inSelection`) or is not
   * (`!inSelection`) in the selection, in collection order.
   */
  function Filter(es: seq<Entity>, sel: seq<EntityId>, inSelection: bool): (r: seq<Entity>)
    ensures |r| <= |es|
    ensures forall e :: e in r <==> e in es && (e.id in sel) == inSelection
  {
    if es == [] then []
    else (if (es[0].id in sel) == inSelection then [es[0]] else []) + Filter(es[1..], sel, inSelection)
  }

  /** `editor.selection` as entities of the remix. */
  function Selected(es: seq<Entity>, sel: seq<EntityId>): seq<Entity> {
    Filter(es, sel, true)
  }

  /** `it is ModelEntity<*> && it.isSpecialEntity && it !is EndRemixEntity` */
  predicate IsSpecial(e: Entity) {
    e.kind == Special
  }

  /** `isAllSpecial`, computed on the current selection. */
  predicate AllSpecial(sel: seq<Entity>) {
    forall e :: e in sel ==> IsSpecial(e)
  }

  /** `MathUtils.FLOAT_ROUNDING_ERROR`, the tolerance of `MathUtils.isEqual`. */
  const FloatRoundingError: real := 0.000001

  predicate NearlyEqual(a: real, b: real) {
    -FloatRoundingError <= a - b <= FloatRoundingError
  }

  /**
   * `isBottomSpecial`, given the value `isAllSpecial` had when it was first read.
   * The "Nothing in selection" error cannot occur: an empty selection is all special.
   */
  function BottomSpecial(allSpecial: bool, sel: seq<Entity>): (r: bool)
    requires sel == [] ==> allSpecial == AllSpecial(sel)
  {
    if allSpecial then true
    else
      var lowPoint := BottomOf(sel).value;
      forall e :: e in sel && NearlyEqual(e.bounds.y, lowPoint) ==> IsSpecial(e)
  }

  /**
   * Read fresh, `isBottomSpecial` holds exactly when the selection is empty or
   * every entity on its lowest row is special.
   */
  lemma BottomSpecialMeaning(sel: seq<Entity>)
    ensures BottomSpecial(AllSpecial(sel), sel) <==>
      sel == [] || forall e :: e in sel && NearlyEqual(e.bounds.y, BottomOf(sel).value) ==> IsSpecial(e)
  {
  }

  /** The row below which a drop deletes the selection. */
  function DeleteThreshold(bottomSpecial: bool): real {
    if bottomSpecial then -1.5 else -0.5
  }

  /** `isInDeleteZone`: `None` is the "Nothing in selection" error of `bottom`. */
  function InDeleteZone(bottomSpecial: bool, sel: seq<Entity>): (r: Option<bool>)
    ensures r.None? <==> sel == []
    ensures r == Some(true) <==>
      sel != [] && exists e :: e in sel && e.bounds.y < DeleteThreshold(bottomSpecial)
  {
    match BottomOf(sel)
    case None => None
    case Some(bottom) => Some(if bottomSpecial then bottom < -1.5 else bottom < -0.5)
  }

  // ---------------------------------------------------------------------------
  // Placement validity of a selection drag
  // ---------------------------------------------------------------------------

  /** The entities' classes, in order. */
  function Kinds(es: seq<Entity>): seq<EntityKind> {
    seq(|es|, i requires 0 <= i < |es| => es[i].kind)
  }

  /** `entities.filter { it is EndRemixEntity }.size`: how many end markers the list holds. */
  function CountEndRemix(es: seq<Entity>): (n: nat)
    ensures n <= |es|
    ensures n == multiset(Kinds(es))[EndRemix]
    ensures n == 0 <==> forall e :: e in es ==> e.kind != EndRemix
  {
    if es == [] then 0
    else
      assert Kinds(es) == [es[0].kind] + Kinds(es[1..]);
      (if es[0].kind == EndRemix then 1 else 0) + CountEndRemix(es[1..])
  }

  /** More than one end marker means two distinct positions hold one. */
  lemma {:induction false} DuplicateEndRemix(es: seq<Entity>)
    ensures CountEndRemix(es) > 1 <==>
      exists i, j :: 0 <= i < j < |es| && es[i].kind == EndRemix && es[j].kind == EndRemix
  {
    if es != [] {
      var t := es[1..];
      DuplicateEndRemix(t);
      if CountEndRemix(es) > 1 {
        if es[0].kind == EndRemix {
          var e :| e in t && e.kind == EndRemix;
          var j :| 0 <= j < |t| && t[j] == e;
          assert es[j + 1] == e;
          assert 0 < j + 1 < |es| && es[0].kind == EndRemix && es[j + 1].kind == EndRemix;
        } else {
          var i, j :| 0 <= i < j < |t| && t[i].kind == EndRemix && t[j].kind == EndRemix;
          assert es[i + 1] == t[i] && es[j + 1] == t[j];
        }
      }
      if exists i, j :: 0 <= i < j < |es| && es[i].kind == EndRemix && es[j].kind == EndRemix {
        var i, j :| 0 <= i < j < |es| && es[i].kind == EndRemix && es[j].kind == EndRemix;
        if i == 0 {
          assert t[j - 1] == es[j];
        } else {
          assert t[i - 1] == es[i] && t[j - 1] == es[j];
        }
      }
    }
  }

  /** The end-of-remix exception: a selected marker while the remix holds more than one. */
  predicate EndRemixConflict(es: seq<Entity>, sel: seq<Entity>) {
    (exists e :: e in sel && e.kind == EndRemix) && CountEndRemix(es) > 1
  }

  /** No entity outside the selection intersects a selected one. */
  predicate ClearOfOthers(es: seq<Entity>, sel: seq<EntityId>) {
    forall e, s :: e in es && e.id !in sel && s in Selected(es, sel) ==> !Intersects(s.bounds, e.bounds)
  }

  /** No two distinct selected entities intersect. */
  predicate ClearOfEachOther(sel: seq<Entity>) {
    forall s, t :: s in sel && t in sel && s.id != t.id ==> !Intersects(s.bounds, t.bounds)
  }

  /**
   * `isPlacementValid` of SelectionDrag, given the frozen `isBottomSpecial` and
   * `isStretching`; `None` is the "Nothing in selection" error.
   */
  function PlacementValid(es: seq<Entity>, sel: seq<EntityId>, bottomSpecial: bool,
                          isStretching: bool, trackCount: int): (r: Option<bool>)
    ensures r.None? <==> Selected(es, sel) == []
    ensures r == Some(true) <==>
      var s := Selected(es, sel);
      && s != []
      && (forall e :: e in s ==> e.bounds.y >= DeleteThreshold(bottomSpecial))
      && (forall e :: e in s ==> e.bounds.y + e.bounds.height <= trackCount as real)
      && !EndRemixConflict(es, s)
      && ClearOfOthers(es, sel)
      && (isStretching ==> ClearOfEachOther(s))
  {
    var s := Selected(es, sel);
    match InDeleteZone(bottomSpecial, s)
    case None => None
    case Some(true) => Some(false)
    case Some(false) =>
      if TopOf(s).value > trackCount as real then Some(false)
      else if EndRemixConflict(es, s) then Some(false)
      else Some(ClearOfOthers(es, sel) && (!isStretching || ClearOfEachOther(s)))
  }

  // ---------------------------------------------------------------------------
  // Reordering and moving the selection
  // ---------------------------------------------------------------------------

  lemma {:induction false} FilterAppend(a: seq<Entity>, b: seq<Entity>, sel: seq<EntityId>, inSelection: bool)
    ensures Filter(a + b, sel, inSelection) == Filter(a, sel, inSelection) + Filter(b, sel, inSelection)
  {
    if a == [] {
      assert a + b == b;
    } else {
      assert (a + b)[0] == a[0];
      assert (a + b)[1..] == a[1..] + b;
      FilterAppend(a[1..], b, sel, inSelection);
    }
  }

  lemma {:induction false} FilterSplits(es: seq<Entity>, sel: seq<EntityId>)
    ensures multiset(Filter(es, sel, false)) + multiset(Filter(es, sel, true)) == multiset(es)
  {
    if es != [] {
      var h, t := es[0], es[1..];
      FilterSplits(t, sel);
      assert es == [h] + t;
      assert multiset(es) == multiset{h} + multiset(t);
      if h.id in sel {
        assert Filter(es, sel, true) == [h] + Filter(t, sel, true);
        assert Filter(es, sel, false) == Filter(t, sel, false);
      } else {
        assert Filter(es, sel, false) == [h] + Filter(t, sel, false);
        assert Filter(es, sel, true) == Filter(t, sel, true);
      }
    }
  }

  lemma {:induction false} FilterTwice(es: seq<Entity>, sel: seq<EntityId>, a: bool, b: bool)
    ensures Filter(Filter(es, sel, a), sel, b) == if a == b then Filter(es, sel, a) else []
  {
    if es != [] {
      FilterTwice(es[1..], sel, a, b);
      var head := if (es[0].id in sel) == a then [es[0]] else [];
      FilterAppend(head, Filter(es[1..], sel, a), sel, b);
    }
  }

  lemma {:induction false} FilterKeepsDistinct(es: seq<Entity>, sel: seq<EntityId>, inSelection: bool)
    requires DistinctIds(es)
    ensures DistinctIds(Filter(es, sel, inSelection))
  {
    if es != [] {
      var rest := es[1..];
      assert DistinctIds(rest) by {
        forall i, j | 0 <= i < j < |rest| ensures rest[i].id != rest[j].id {
          assert rest[i] == es[i + 1] && rest[j] == es[j + 1];
        }
      }
      FilterKeepsDistinct(rest, sel, inSelection);
      forall e | e in rest ensures e.id != es[0].id {
        var k :| 0 <= k < |rest| && rest[k] == e;
        assert es[k + 1] == e;
      }
    }
  }

  /**
   * The entity list after the first `setPositionRelativeToMouse`: `sortWith` is a
   * stable sort, and its comparator only tells selected entities (greater) from
   * unselected ones, so the result is the unselected entities followed by the
   * selected ones, each group in its original order.
   */
  function SelectedLast(es: seq<Entity>, sel: seq<EntityId>): seq<Entity> {
    Filter(es, sel, false) + Filter(es, sel, true)
  }

  /** `SelectedLast` is a permutation of the collection. */
  lemma SelectedLastIsPermutation(es: seq<Entity>, sel: seq<EntityId>)
    ensures multiset(SelectedLast(es, sel)) == multiset(es)
  {
    FilterSplits(es, sel);
  }

  /** `SelectedLast` is sorted by the comparator: no selected entity comes before an unselected one. */
  lemma SelectedLastIsSorted(es: seq<Entity>, sel: seq<EntityId>)
    ensures var p := SelectedLast(es, sel);
      forall i, j :: 0 <= i < j < |p| ==> !(p[i].id in sel && p[j].id !in sel)
  {
    var u, s := Filter(es, sel, false), Filter(es, sel, true);
    var p := u + s;
    forall i, j | 0 <= i < j < |p| ensures !(p[i].id in sel && p[j].id !in sel) {
      if i < |u| {
        assert p[i] == u[i] && p[i] in u;
      } else {
        assert p[j] == s[j - |u|] && p[j] in s;
      }
    }
  }

  /** `SelectedLast` is stable: within each group the original order is kept. */
  lemma SelectedLastIsStable(es: seq<Entity>, sel: seq<EntityId>)
    ensures Filter(SelectedLast(es, sel), sel, true) == Filter(es, sel, true)
    ensures Filter(SelectedLast(es, sel), sel, false) == Filter(es, sel, false)
  {
    var u, s := Filter(es, sel, false), Filter(es, sel, true);
    FilterAppend(u, s, sel, true);
    FilterAppend(u, s, sel, false);
    FilterTwice(es, sel, false, true);
    FilterTwice(es, sel, true, true);
    FilterTwice(es, sel, false, false);
    FilterTwice(es, sel, true, false);
  }

  /** Reordering never makes two occurrences of one entity. */
  lemma SelectedLastKeepsDistinct(es: seq<Entity>, sel: seq<EntityId>)
    requires DistinctIds(es)
    ensures DistinctIds(SelectedLast(es, sel))
  {
    var u, s := Filter(es, sel, false), Filter(es, sel, true);
    var p := u + s;
    FilterKeepsDistinct(es, sel, false);
    FilterKeepsDistinct(es, sel, true);
    forall i, j | 0 <= i < j < |p| ensures p[i].id != p[j].id {
      if j < |u| {
        assert p[i] == u[i] && p[j] == u[j];
      } else if i >= |u| {
        assert p[i] == s[i - |u|] && p[j] == s[j - |u|];
      } else {
        assert p[i] == u[i] && p[i] in u;
        assert p[j] == s[j - |u|] && p[j] in s;
      }
    }
  }

  function Find(es: seq<Entity>, id: EntityId): (r: Option<Entity>)
    ensures r.Some? ==> r.value in es && r.value.id == id
    ensures r.None? <==> id !in Ids(es)
  {
    if es == [] then None
    else if es[0].id == id then Some(es[0])
    else
      var r := Find(es[1..], id);
      assert Ids(es) == [es[0].id] + Ids(es[1..]);
      r
  }

  /** `first.bounds.setPosition(x, y)` */
  function Anchored(e: Entity, x: real, y: real): Entity {
    e.(bounds := e.bounds.(x := x, y := y))
  }

  /** Translation of one selected entity that keeps its offset from the anchor's old position. */
  function Translated(e: Entity, anchor: Rect, x: real, y: real): Entity {
    e.(bounds := e.bounds.(x := (e.bounds.x - anchor.x) + x, y := (e.bounds.y - anchor.y) + y))
  }

  /** What `setFirstPosition` has done to one entity once the ids in `done` have been visited. */
  function MovedBy(e: Entity, done: seq<EntityId>, first: EntityId, anchor: Rect, x: real, y: real): Entity {
    if e.id == first then Anchored(e, x, y)
    else if e.id in done then Translated(e, anchor, x, y)
    else e
  }

  /** One step of `setFirstPosition`'s loop: every entity with identity `id` is translated. */
  function TranslateAll(es: seq<Entity>, id: EntityId, anchor: Rect, x: real, y: real): seq<Entity>
  {
    seq(|es|, k requires 0 <= k < |es| => if es[k].id == id then Translated(es[k], anchor, x, y) else es[k])
  }

  /** The entity list after `setFirstPosition(x, y)`. */
  function MoveSelection(es: seq<Entity>, sel: seq<EntityId>, first: EntityId, x: real, y: real): (r: seq<Entity>)
    requires first in Ids(es)
  {
    var anchor := Find(es, first).value.bounds;
    seq(|es|, k requires 0 <= k < |es| => MovedBy(es[k], sel, first, anchor, x, y))
  }

  /**
   * `setFirstPosition` changes positions only: no size, kind or identity
   * changes, and entities outside the selection stay where they are.
   */
  lemma MoveSelectionKeepsShape(es: seq<Entity>, sel: seq<EntityId>, first: EntityId, x: real, y: real)
    requires first in Ids(es)
    ensures var r := MoveSelection(es, sel, first, x, y);
      && |r| == |es|
      && Ids(r) == Ids(es)
      && (forall k :: 0 <= k < |es| ==>
            r[k].kind == es[k].kind &&
            r[k].bounds.width == es[k].bounds.width && r[k].bounds.height == es[k].bounds.height)
      && (forall k :: 0 <= k < |es| && es[k].id != first && es[k].id !in sel ==> r[k] == es[k])
  {
    MoveSelectionIds(es, sel, first, x, y);
    var r := MoveSelection(es, sel, first, x, y);
    var anchor := Find(es, first).value.bounds;
    forall k | 0 <= k < |es|
      ensures r[k].kind == es[k].kind
      ensures r[k].bounds.width == es[k].bounds.width && r[k].bounds.height == es[k].bounds.height
      ensures es[k].id != first && es[k].id !in sel ==> r[k] == es[k]
    {
      assert r[k] == MovedBy(es[k], sel, first, anchor, x, y);
    }
  }

  lemma MoveSelectionIds(es: seq<Entity>, sel: seq<EntityId>, first: EntityId, x: real, y: real)
    requires first in Ids(es)
    ensures Ids(MoveSelection(es, sel, first, x, y)) == Ids(es)
  {
    var r := MoveSelection(es, sel, first, x, y);
    var anchor := Find(es, first).value.bounds;
    forall k | 0 <= k < |r| ensures Ids(r)[k] == Ids(es)[k] {
      assert r[k] == MovedBy(es[k], sel, first, anchor, x, y);
    }
  }

  /**
   * `setFirstPosition` moves the anchor to `(x, y)` and translates the rest of
   * the selection rigidly with it: every selected entity keeps its offset from the anchor.
   */
  lemma MoveSelectionIsRigid(es: seq<Entity>, sel: seq<EntityId>, first: EntityId, x: real, y: real)
    requires first in Ids(es) && DistinctIds(es)
    ensures var r := MoveSelection(es, sel, first, x, y);
      && (forall k :: 0 <= k < |es| && es[k].id == first ==> r[k].bounds.x == x && r[k].bounds.y == y)
      && (forall j, k :: 0 <= j < |es| && 0 <= k < |es| && es[j].id == first && es[k].id in sel ==>
            r[k].bounds.x - r[j].bounds.x == es[k].bounds.x - es[j].bounds.x &&
            r[k].bounds.y - r[j].bounds.y == es[k].bounds.y - es[j].bounds.y)
  {
    var anchor := Find(es, first).value;
    forall j | 0 <= j < |es| && es[j].id == first ensures es[j] == anchor {
      var i :| 0 <= i < |es| && es[i] == anchor;
      assert es[i].id == es[j].id;
    }
  }

  /** `MoveSelection` keeps every entity's identity in place. */
  lemma {:induction false} SameIds(a: seq<Entity>, b: seq<Entity>)
    requires |a| == |b| && forall k :: 0 <= k < |a| ==> a[k].id == b[k].id
    ensures Ids(a) == Ids(b)
    ensures DistinctIds(a) <==> DistinctIds(b)
  {
    assert forall k :: 0 <= k < |a| ==> Ids(a)[k] == Ids(b)[k];
  }

  // ---------------------------------------------------------------------------
  // The occupations
  // ---------------------------------------------------------------------------

  /** Moving the playback start marker. */
  class Playback {
    const remix: Remix
    /** `old`: the playback start when the drag began. */
    const original: Float
    var finished: bool
    /** `final`: NaN until the drag result is committed. */
    var finalValue: Float

    constructor (remix: Remix)
      ensures this.remix == remix && original == remix.playbackStart
      ensures !finished && finalValue == NaN
    {
      this.remix := remix;
      original := remix.playbackStart;
      finished := false;
      finalValue := NaN;
    }

    /** The `final` setter: a second assignment once a number is stored is an error. */
    method SetFinal(value: Float) returns (o: Outcome)
      modifies this`finalValue
      ensures old(finalValue).NaN? ==> o == Pass && finalValue == value
      ensures old(finalValue).Num? ==> o.Fail? && finalValue == old(finalValue)
    {
      if finalValue.Num? {
        return Fail("Attempt to set value when already set");
      }
      finalValue := value;
      o := Pass;
    }

    /**
     * The guard `final == Float.NaN` compares with NaN and so never fires:
     * redo always succeeds, writing even a NaN final value.
     */
    method Redo() returns (o: Outcome)
      modifies remix`playbackStart
      ensures o == Pass
      ensures remix.playbackStart == finalValue
    {
      if FloatEquals(finalValue, NaN) {
        return Fail("Final value was NaN which is impossible");
      }
      remix.playbackStart := finalValue;
      o := Pass;
    }

    method Undo()
      modifies remix`playbackStart
      ensures remix.playbackStart == original
    {
      remix.playbackStart := original;
    }
  }

  /** Moving the music start offset. */
  class Music {
    const remix: Remix
    const middleClick: bool
    /** `old`: the music start when the drag began. */
    const original: Float
    var finished: bool
    var finalValue: Float

    constructor (remix: Remix, middleClick: bool)
      ensures this.remix == remix && this.middleClick == middleClick
      ensures original == remix.musicStartSec
      ensures !finished && finalValue == NaN
    {
      this.remix := remix;
      this.middleClick := middleClick;
      original := remix.musicStartSec;
      finished := false;
      finalValue := NaN;
    }

    method SetFinal(value: Float) returns (o: Outcome)
      modifies this`finalValue
      ensures old(finalValue).NaN? ==> o == Pass && finalValue == value
      ensures old(finalValue).Num? ==> o.Fail? && finalValue == old(finalValue)
    {
      if finalValue.Num? {
        return Fail("Attempt to set value when already set");
      }
      finalValue := value;
      o := Pass;
    }

    /** The guard `final != final` is a working NaN test: redo fails on NaN and writes nothing. */
    method Redo() returns (o: Outcome)
      modifies remix`musicStartSec
      ensures o.Fail? <==> finalValue.NaN?
      ensures o.Pass? ==> remix.musicStartSec == finalValue
      ensures o.Fail? ==> remix.musicStartSec == old(remix.musicStartSec)
    {
      if !FloatEquals(finalValue, finalValue) {
        return Fail("Final value was NaN which is impossible");
      }
      remix.musicStartSec := finalValue;
      o := Pass;
    }

    method Undo()
      modifies remix`musicStartSec
      ensures remix.musicStartSec == original
    {
      remix.musicStartSec := original;
    }
  }

  /** Rubber-band selection. */
  class CreatingSelection {
    const oldSelection: seq<EntityId>
    const startX: real
    const startY: real
    var rectangle: Rect

    constructor (selection: seq<EntityId>, startX: real, startY: real)
      ensures oldSelection == selection && this.startX == startX && this.startY == startY
      ensures rectangle == Rect(0.0, 0.0, 0.0, 0.0)
    {
      oldSelection := selection;
      this.startX := startX;
      this.startY := startY;
      rectangle := Rect(0.0, 0.0, 0.0, 0.0);
    }

    /** `updateRectangle`, with the pointer position passed in. */
    method UpdateRectangle(inputX: real, inputY: real)
      modifies this`rectangle
      ensures rectangle.width >= 0.0 && rectangle.height >= 0.0
      ensures rectangle.x == Min(startX, inputX) && rectangle.x + rectangle.width == Max(startX, inputX)
      ensures rectangle.y == Min(startY, inputY) && rectangle.y + rectangle.height == Max(startY, inputY)
    {
      var width := inputX - startX;
      var height := inputY - startY;
      if width < 0.0 {
        var abs := -width;
        rectangle := rectangle.(x := startX - abs, width := abs);
      } else {
        rectangle := rectangle.(x := startX, width := width);
      }
      if height < 0.0 {
        var abs := -height;
        rectangle := rectangle.(y := startY - abs, height := abs);
      } else {
        rectangle := rectangle.(y := startY, height := height);
      }
    }
  }

  datatype StretchRegion = NoStretch | StretchLeft | StretchRight

  /** `copyBounds`: the bounds of every selected entity, by identity. */
  function CopyBounds(es: seq<Entity>, sel: seq<EntityId>): (m: map<EntityId, Rect>)
    requires DistinctIds(es)
    ensures forall e :: e in Selected(es, sel) ==> e.id in m && m[e.id] == e.bounds
    ensures forall id :: id in m ==> id in sel && id in Ids(es)
  {
    var m := map id | id in sel && Find(es, id).Some? :: Find(es, id).value.bounds;
    forall e | e in Selected(es, sel) ensures e.id in m && m[e.id] == e.bounds {
      var f := Find(es, e.id).value;
      var i :| 0 <= i < |es| && es[i] == e;
      var j :| 0 <= j < |es| && es[j] == f;
      assert es[i].id == es[j].id;
    }
    m
  }

  /** Dragging (moving, copying, placing or stretching) the selection. */
  class SelectionDrag {
    const remix: Remix
    /** The anchor entity that follows the pointer. */
    const first: EntityId
    const clickedOn: EntityId
    const mouseOffsetX: real
    const mouseOffsetY: real
    const isNew: bool
    const isCopy: bool
    const previousSelection: seq<EntityId>
    const stretchType: StretchRegion
    /** `editor.selection` during the drag. */
    const selection: seq<EntityId>
    const isNewOrCopy: bool
    const oldBounds: map<EntityId, Rect>
    /** A `by lazy` value, but it reads only constants, so freezing it changes nothing. */
    const isStretching: bool
    var firstSetPosition: bool
    // The `by lazy` values: `None` until the first successful read.
    var allSpecialMemo: Option<bool>
    var bottomSpecialMemo: Option<bool>
    var widthMemo: Option<real>
    var heightMemo: Option<int>

    ghost predicate Valid()
      reads this, remix
    {
      && DistinctIds(remix.entities)
      && first in Ids(remix.entities)
      && (forall id :: id in selection ==> id in Ids(remix.entities))
      && NoDuplicates(selection)
      && (bottomSpecialMemo.Some? ==> allSpecialMemo.Some?)
      && (selection == [] && allSpecialMemo.Some? ==> allSpecialMemo.value)
    }

    /** The selected entities as they currently are. */
    function SelectedEntities(): seq<Entity>
      reads this, remix
    {
      Selected(remix.entities, selection)
    }

    constructor (remix: Remix, first: EntityId, clickedOn: EntityId, mouseOffsetX: real, mouseOffsetY: real,
                 isNew: bool, isCopy: bool, previousSelection: seq<EntityId>, stretchType: StretchRegion,
                 selection: seq<EntityId>)
      requires DistinctIds(remix.entities) && first in Ids(remix.entities)
      requires forall id :: id in selection ==> id in Ids(remix.entities)
      requires NoDuplicates(selection)
      ensures Valid()
      ensures this.remix == remix && this.first == first && this.clickedOn == clickedOn
      ensures this.mouseOffsetX == mouseOffsetX && this.mouseOffsetY == mouseOffsetY
      ensures this.isNew == isNew && this.isCopy == isCopy && this.previousSelection == previousSelection
      ensures this.stretchType == stretchType && this.selection == selection
      ensures isNewOrCopy == (isNew || isCopy)
      ensures isStretching == (!isNewOrCopy && stretchType != NoStretch)
      ensures oldBounds == CopyBounds(remix.entities, selection)
      ensures firstSetPosition
      ensures allSpecialMemo.None? && bottomSpecialMemo.None? && widthMemo.None? && heightMemo.None?
    {
      this.remix := remix;
      this.first := first;
      this.clickedOn := clickedOn;
      this.mouseOffsetX := mouseOffsetX;
      this.mouseOffsetY := mouseOffsetY;
      this.isNew := isNew;
      this.isCopy := isCopy;
      this.previousSelection := previousSelection;
      this.stretchType := stretchType;
      this.selection := selection;
      isNewOrCopy := isNew || isCopy;
      oldBounds := CopyBounds(remix.entities, selection);
      isStretching := !(isNew || isCopy) && stretchType != NoStretch;
      firstSetPosition := true;
      allSpecialMemo := None;
      bottomSpecialMemo := None;
      widthMemo := None;
      heightMemo := None;
    }

    /** The live getters `left`, `right`, `top` and `bottom`. */
    function Left(): Option<real> reads this, remix { LeftOf(SelectedEntities()) }
    function Right(): Option<real> reads this, remix { RightOf(SelectedEntities()) }
    function Top(): Option<real> reads this, remix { TopOf(SelectedEntities()) }
    function Bottom(): Option<real> reads this, remix { BottomOf(SelectedEntities()) }

    /** `isAllSpecial`: computed on first read, then frozen. */
    method IsAllSpecial() returns (b: bool)
      requires Valid()
      modifies this`allSpecialMemo
      ensures Valid()
      ensures b == (if old(allSpecialMemo).Some? then old(allSpecialMemo).value else AllSpecial(SelectedEntities()))
      ensures allSpecialMemo == Some(b)
    {
      if allSpecialMemo.Some? {
        return allSpecialMemo.value;
      }
      b := AllSpecial(SelectedEntities());
      SelectedMatchesSelection(remix.entities, selection);
      allSpecialMemo := Some(b);
    }

    /** The memo state once `isBottomSpecial` has been read, given the memos before. */
    ghost predicate BottomSpecialRead(all0: Option<bool>, bottom0: Option<bool>)
      reads this, remix
    {
      && allSpecialMemo == (if bottom0.Some? || all0.Some? then all0 else Some(AllSpecial(SelectedEntities())))
      && allSpecialMemo.Some?
      && bottomSpecialMemo.Some?
      && (bottom0.Some? ==> bottomSpecialMemo == bottom0)
      && (bottom0.None? && (SelectedEntities() == [] ==> allSpecialMemo.value) ==>
            bottomSpecialMemo == Some(BottomSpecial(allSpecialMemo.value, SelectedEntities())))
    }

    /** `isBottomSpecial`: computed on first read (reading `isAllSpecial`), then frozen. */
    method IsBottomSpecial() returns (b: bool)
      requires Valid()
      modifies this`allSpecialMemo, this`bottomSpecialMemo
      ensures Valid()
      ensures BottomSpecialRead(old(allSpecialMemo), old(bottomSpecialMemo))
      ensures bottomSpecialMemo == Some(b)
    {
      if bottomSpecialMemo.Some? {
        return bottomSpecialMemo.value;
      }
      var all := IsAllSpecial();
      SelectedMatchesSelection(remix.entities, selection);
      b := BottomSpecial(all, SelectedEntities());
      bottomSpecialMemo := Some(b);
    }

    /** `width`: `right - left` on first successful read, then frozen. */
    method Width() returns (r: Result<real>)
      modifies this`widthMemo
      ensures old(widthMemo).Some? ==> r == Ok(old(widthMemo).value) && widthMemo == old(widthMemo)
      ensures old(widthMemo).None? && SelectedEntities() == [] ==> r.Err? && widthMemo.None?
      ensures old(widthMemo).None? && SelectedEntities() != [] ==>
        r == Ok(Right().value - Left().value) && widthMemo == Some(r.value)
    {
      if widthMemo.Some? {
        return Ok(widthMemo.value);
      }
      if SelectedEntities() == [] {
        return Err("Nothing in selection");
      }
      var w := Right().value - Left().value;
      widthMemo := Some(w);
      r := Ok(w);
    }

    /** `height`: `(top - bottom).roundToInt()` on first successful read, then frozen. */
    method Height() returns (r: Result<int>)
      modifies this`heightMemo
      ensures old(heightMemo).Some? ==> r == Ok(old(heightMemo).value) && heightMemo == old(heightMemo)
      ensures old(heightMemo).None? && SelectedEntities() == [] ==> r.Err? && heightMemo.None?
      ensures old(heightMemo).None? && SelectedEntities() != [] ==>
        r == Ok(RoundHalfUp(Top().value - Bottom().value)) && heightMemo == Some(r.value)
    {
      if heightMemo.Some? {
        return Ok(heightMemo.value);
      }
      if SelectedEntities() == [] {
        return Err("Nothing in selection");
      }
      var h := RoundHalfUp(Top().value - Bottom().value);
      heightMemo := Some(h);
      r := Ok(h);
    }

    /** `setFirstPosition(x, y)` */
    method SetFirstPosition(x: real, y: real)
      requires Valid()
      modifies remix`entities
      ensures Valid()
      ensures remix.entities == MoveSelection(old(remix.entities), selection, first, x, y)
    {
      ghost var es0 := remix.entities;
      var anchor := Find(remix.entities, first).value.bounds;
      var es := remix.entities;
      var cur := seq(|es|, k requires 0 <= k < |es| =>
        if es[k].id == first then Anchored(es[k], x, y) else es[k]);
      var i := 0;
      while i < |selection|
        invariant 0 <= i <= |selection|
        invariant |cur| == |es0|
        invariant forall k :: 0 <= k < |es0| ==> cur[k] == MovedBy(es0[k], selection[..i], first, anchor, x, y)
      {
        var id := selection[i];
        assert selection[..i + 1] == selection[..i] + [id];
        assert id !in selection[..i];
        if id != first {
          cur := TranslateAll(cur, id, anchor, x, y);
        }
        i := i + 1;
      }
      remix.entities := cur;
      assert selection[..i] == selection;
      SameIds(cur, es0);
    }

    /**
     * The first-call `remix.entities.sortWith(...)`: a stable sort that puts
     * the selected entities after the others.
     */
    method MoveSelectionToEnd()
      requires Valid()
      modifies remix`entities
      ensures Valid()
      ensures remix.entities == SelectedLast(old(remix.entities), selection)
    {
      ghost var es := remix.entities;
      SelectedLastIsPermutation(es, selection);
      SelectedLastKeepsDistinct(es, selection);
      MultisetKeepsIds(es, SelectedLast(es, selection));
      remix.entities := SelectedLast(remix.entities, selection);
    }

    /**
     * `setPositionRelativeToMouse`, with the pointer position and the
     * `MathHelper.snapToNearest` function passed in.
     */
    method SetPositionRelativeToMouse(inputX: real, inputY: real, snap: real, intY: bool,
                                      snapToNearest: (real, real) -> real)
      requires Valid()
      modifies this`firstSetPosition, remix`entities
      ensures Valid()
      ensures !firstSetPosition
      ensures var before := if old(firstSetPosition) then SelectedLast(old(remix.entities), selection)
                            else old(remix.entities);
        && first in Ids(before)
        && remix.entities == MoveSelection(before, selection, first,
             snapToNearest(inputX - mouseOffsetX, snap),
             if intY then RoundHalfUp(inputY - mouseOffsetY) as real else inputY - mouseOffsetY)
    {
      var x := snapToNearest(inputX - mouseOffsetX, snap);
      var y := if intY then RoundHalfUp(inputY - mouseOffsetY) as real else inputY - mouseOffsetY;
      if firstSetPosition {
        firstSetPosition := false;
        MoveSelectionToEnd();
      }
      ghost var before := remix.entities;
      SetFirstPosition(x, y);
      assert remix.entities == MoveSelection(before, selection, first, x, y);
    }

    /** `isInDeleteZone` */
    method IsInDeleteZone() returns (r: Option<bool>)
      requires Valid()
      modifies this`allSpecialMemo, this`bottomSpecialMemo
      ensures Valid()
      ensures BottomSpecialRead(old(allSpecialMemo), old(bottomSpecialMemo))
      ensures r == InDeleteZone(bottomSpecialMemo.value, SelectedEntities())
    {
      var bottomSpecial := IsBottomSpecial();
      r := InDeleteZone(bottomSpecial, SelectedEntities());
    }

    /** `isPlacementValid` */
    method IsPlacementValid() returns (r: Option<bool>)
      requires Valid()
      modifies this`allSpecialMemo, this`bottomSpecialMemo
      ensures Valid()
      ensures BottomSpecialRead(old(allSpecialMemo), old(bottomSpecialMemo))
      ensures r == PlacementValid(remix.entities, selection, bottomSpecialMemo.value, isStretching, remix.trackCount)
    {
      var inDeleteZone := IsInDeleteZone();
      var sel := SelectedEntities();
      if inDeleteZone.None? {
        return None;
      }
      if inDeleteZone.value {
        return Some(false);
      }
      if TopOf(sel).value > remix.trackCount as real {
        return Some(false);
      }
      if EndRemixConflict(remix.entities, sel) {
        return Some(false);
      }
      r := Some(ClearOfOthers(remix.entities, selection) && (!isStretching || ClearOfEachOther(sel)));
    }
  }

  /** With every selected id in the collection, the selection is empty exactly when no entity is selected. */
  lemma SelectedMatchesSelection(es: seq<Entity>, sel: seq<EntityId>)
    requires forall id :: id in sel ==> id in Ids(es)
    ensures Selected(es, sel) == [] <==> sel == []
  {
    if sel != [] {
      var id := sel[0];
      IdInIds(es, id);
      var i :| 0 <= i < |es| && es[i].id == id;
      assert es[i] in Selected(es, sel);
    } else {
      NothingSelected(es);
    }
  }

  lemma {:induction false} NothingSelected(es: seq<Entity>)
    ensures Selected(es, []) == []
  {
    if es != [] {
      NothingSelected(es[1..]);
    }
  }

  /** A permutation of the collection holds the same identities. */
  lemma MultisetKeepsIds(a: seq<Entity>, b: seq<Entity>)
    requires multiset(a) == multiset(b)
    ensures forall id :: id in Ids(a) <==> id in Ids(b)
  {
    forall id | id in Ids(a) ensures id in Ids(b) {
      var i :| 0 <= i < |a| && Ids(a)[i] == id;
      assert a[i] in multiset(b);
      var j :| 0 <= j < |b| && b[j] == a[i];
      assert Ids(b)[j] == id;
    }
    forall id | id in Ids(b) ensures id in Ids(a) {
      var j :| 0 <= j < |b| && Ids(b)[j] == id;
      assert b[j] in multiset(a);
      var i :| 0 <= i < |a| && a[i] == b[j];
      assert Ids(a)[i] == id;
    }
  }

  // ---------------------------------------------------------------------------
  // Tracker resizing
  // ---------------------------------------------------------------------------

  /** A tempo or time-signature tracker: a region `[beat, beat + width)` with a label. */
  datatype Tracker = Tracker(beat: real, width: real, text: string)

  /** `Tracker.endBeat` */
  function EndBeat(t: Tracker): real {
    t.beat + t.width
  }

  /** `normalizeWidth` on a (beat, width) pair: a negative width is flipped and the start moved back. */
  function Normalized(beat: real, width: real): (r: (real, real))
    ensures r.1 >= 0.0
    ensures r.0 == Min(beat, beat + width) && r.0 + r.1 == Max(beat, beat + width)
  {
    if width < 0.0 then (beat - (-width), -width) else (beat, width)
  }

  /** Normalizing twice is normalizing once. */
  lemma NormalizedIdempotent(beat: real, width: real)
    ensures var r := Normalized(beat, width); Normalized(r.0, r.1) == r
  {
  }

  /**
   * The (beat, width) of `updatePosition(p)`: the grabbed edge goes to `p`, the
   * other edge (`endBeat` when dragging the left edge, `beat` when dragging the
   * right one) stays, and the span is normalized.
   */
  function ResizedTo(t: Tracker, left: bool, p: real): (r: (real, real))
    ensures var fixed := if left then EndBeat(t) else t.beat;
      r.1 >= 0.0 && r.0 == Min(fixed, p) && r.0 + r.1 == Max(fixed, p)
  {
    if left then Normalized(p, EndBeat(t) - p) else Normalized(t.beat, p - t.beat)
  }

  /** Another tracker overlaps `[beat, beat + width)` or starts at exactly `beat`. */
  predicate Conflicts(other: Tracker, beat: real, width: real) {
    (beat < other.beat + other.width && beat + width > other.beat) || other.beat == beat
  }

  /**
   * `container.map.values.none { it !== tracker && conflicts }`, where `self` is
   * the position of the resized tracker in `ts` (negative once it has been passed).
   */
  function NoConflicts(ts: seq<Tracker>, self: int, beat: real, width: real): (r: bool)
    ensures r <==> forall j :: 0 <= j < |ts| && j != self ==> !Conflicts(ts[j], beat, width)
  {
    if ts == [] then true
    else
      var rest := NoConflicts(ts[1..], self - 1, beat, width);
      assert forall j :: 1 <= j < |ts| ==> ts[j] == ts[1..][j - 1];
      (self == 0 || !Conflicts(ts[0], beat, width)) && rest
  }

  /** Resizing one tracker of a container by one of its edges. */
  class TrackerResize {
    /** `tracker.container.map.values` */
    const container: seq<Tracker>
    /** Where `tracker` sits in `container`. */
    const index: nat
    const tracker: Tracker
    const mouseOffset: real
    const left: bool
    const text: string
    var beat: real
    var width: real

    constructor (container: seq<Tracker>, index: nat, mouseOffset: real, left: bool)
      requires index < |container|
      ensures this.container == container && this.index == index && tracker == container[index]
      ensures this.mouseOffset == mouseOffset && this.left == left
      ensures beat == tracker.beat && width == tracker.width && text == tracker.text
    {
      this.container := container;
      this.index := index;
      tracker := container[index];
      this.mouseOffset := mouseOffset;
      this.left := left;
      text := container[index].text;
      beat := container[index].beat;
      width := container[index].width;
    }

    method NormalizeWidth()
      modifies this`beat, this`width
      ensures (beat, width) == Normalized(old(beat), old(width))
    {
      if width < 0.0 {
        width := -width;
        beat := beat - width;
      }
    }

    /** `isPlacementValid` of the resized span against the other trackers of the container. */
    function IsPlacementValid(): (r: bool)
      reads this
      ensures r <==> forall j :: 0 <= j < |container| && j != index ==> !Conflicts(container[j], beat, width)
    {
      NoConflicts(container, index, beat, width)
    }

    /** `updatePosition(newPos)`: the result depends on `newPos` alone, never on earlier drags. */
    method UpdatePosition(newPos: real)
      modifies this`beat, this`width
      ensures (beat, width) == ResizedTo(tracker, left, newPos)
      ensures var fixed := if left then EndBeat(tracker) else tracker.beat;
        width >= 0.0 && beat == Min(fixed, newPos) && beat + width == Max(fixed, newPos)
    {
      var originalX := tracker.beat;
      var originalEndX := EndBeat(tracker);
      if left {
        beat := newPos;
        width := originalEndX - newPos;
      } else {
        beat := originalX;
        width := newPos - originalX;
      }
      NormalizeWidth();
    }
  }

  // ---------------------------------------------------------------------------
  // Worked scenarios
  // ---------------------------------------------------------------------------

  /** Two entities at beats [0, 2) and [2, 4) on row 0: a third one dragged to [1, 3) overlaps the first. */
  lemma OverlapScenarioBlocked()
    ensures var a, b := Entity(1, Ordinary, Rect(0.0, 0.0, 2.0, 1.0)), Entity(2, Ordinary, Rect(2.0, 0.0, 2.0, 1.0));
      PlacementValid([a, b, Entity(3, Ordinary, Rect(1.0, 0.0, 2.0, 1.0))], [3], false, false, 5) == Some(false)
  {
    var a, b := Entity(1, Ordinary, Rect(0.0, 0.0, 2.0, 1.0)), Entity(2, Ordinary, Rect(2.0, 0.0, 2.0, 1.0));
    var bad := Entity(3, Ordinary, Rect(1.0, 0.0, 2.0, 1.0));
    SelectedOfThird(a, b, bad);
    assert Intersects(bad.bounds, a.bounds);
  }

  /** The same two entities: a third one at [4, 6) touches neither, so it may be placed. */
  lemma OverlapScenarioFits()
    ensures var a, b := Entity(1, Ordinary, Rect(0.0, 0.0, 2.0, 1.0)), Entity(2, Ordinary, Rect(2.0, 0.0, 2.0, 1.0));
      PlacementValid([a, b, Entity(3, Ordinary, Rect(4.0, 0.0, 2.0, 1.0))], [3], false, false, 5) == Some(true)
  {
    var a, b := Entity(1, Ordinary, Rect(0.0, 0.0, 2.0, 1.0)), Entity(2, Ordinary, Rect(2.0, 0.0, 2.0, 1.0));
    SelectedOfThird(a, b, Entity(3, Ordinary, Rect(4.0, 0.0, 2.0, 1.0)));
  }

  lemma SelectedOfSecond(a: Entity, c: Entity)
    requires a.id != c.id
    ensures Selected([a, c], [c.id]) == [c]
  {
    var sel := [c.id];
    assert [c][1..] == [];
    assert Filter([c], sel, true) == [c] + Filter([], sel, true);
    assert [a, c][1..] == [c];
    assert Filter([a, c], sel, true) == Filter([c], sel, true);
  }

  lemma SelectedOfThird(a: Entity, b: Entity, c: Entity)
    requires a.id != c.id && b.id != c.id
    ensures Selected([a, b, c], [c.id]) == [c]
  {
    var sel := [c.id];
    assert [c][1..] == [];
    assert Filter([c], sel, true) == [c] + Filter([], sel, true);
    assert [b, c][1..] == [c];
    assert Filter([b, c], sel, true) == Filter([c], sel, true);
    assert [a, b, c][1..] == [b, c];
    assert Filter([a, b, c], sel, true) == Filter([b, c], sel, true);
  }

  /** An all-special selection is deleted below row -1.5, any other below row -0.5. */
  lemma DeleteZoneThresholds(x: real)
    ensures InDeleteZone(true, [Entity(1, Special, Rect(x, -1.4, 1.0, 1.0))]) == Some(false)
    ensures InDeleteZone(true, [Entity(1, Special, Rect(x, -1.6, 1.0, 1.0))]) == Some(true)
    ensures InDeleteZone(false, [Entity(1, Ordinary, Rect(x, -0.6, 1.0, 1.0))]) == Some(true)
    ensures InDeleteZone(false, [Entity(1, Ordinary, Rect(x, -0.4, 1.0, 1.0))]) == Some(false)
  {
  }

  /** Dragging the only end marker of the remix is fine. */
  lemma EndRemixScenarioSingle()
    ensures var cue, end := Entity(1, Ordinary, Rect(0.0, 0.0, 1.0, 1.0)), Entity(2, EndRemix, Rect(8.0, 0.0, 1.0, 1.0));
      PlacementValid([cue, end], [2], false, false, 5) == Some(true)
  {
    var cue, end := Entity(1, Ordinary, Rect(0.0, 0.0, 1.0, 1.0)), Entity(2, EndRemix, Rect(8.0, 0.0, 1.0, 1.0));
    SelectedOfSecond(cue, end);
    assert [cue, end][1..] == [end];
    assert [end][1..] == [];
    assert CountEndRemix([cue, end]) == 1;
  }

  /** With a second end marker in the remix, dragging an end marker is never a valid placement. */
  lemma EndRemixScenarioDuplicate()
    ensures var cue, end := Entity(1, Ordinary, Rect(0.0, 0.0, 1.0, 1.0)), Entity(2, EndRemix, Rect(8.0, 0.0, 1.0, 1.0));
      PlacementValid([cue, Entity(3, EndRemix, Rect(4.0, 0.0, 1.0, 1.0)), end], [2], false, false, 5) == Some(false)
  {
    var cue, end := Entity(1, Ordinary, Rect(0.0, 0.0, 1.0, 1.0)), Entity(2, EndRemix, Rect(8.0, 0.0, 1.0, 1.0));
    var copy := Entity(3, EndRemix, Rect(4.0, 0.0, 1.0, 1.0));
    SelectedOfThird(cue, copy, end);
    assert [cue, copy, end][1..] == [copy, end];
    assert [copy, end][1..] == [end];
    assert [end][1..] == [];
    assert CountEndRemix([cue, copy, end]) == 2;
  }
}
