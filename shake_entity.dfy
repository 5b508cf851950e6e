/**
 * `ShakeEntity`: a stretchable, repitchable special entity that, while it
 * plays, is listed in the remix's `currentShakeEntities`.
 */
module ShakeEntity {
  import opened Track

  /** `list - x` and `list.remove(x)`: the first occurrence goes, the rest stays in order (`RemoveFirstSplits`). */
  function RemoveFirst<T(==)>(xs: seq<T>, x: T): (r: seq<T>)
    ensures x !in xs ==> r == xs
    ensures x in xs ==> |r| == |xs| - 1
    ensures multiset(r) == multiset(xs) - multiset{x}
  {
    if xs == [] then []
    else if xs[0] == x then
      assert xs == [xs[0]] + xs[1..];
      xs[1..]
    else
      assert xs == [xs[0]] + xs[1..];
      [xs[0]] + RemoveFirst(xs[1..], x)
  }

  /** `if (x !in list) list += x` */
  function AddIfAbsent<T(==)>(xs: seq<T>, x: T): (r: seq<T>)
    ensures x in r
    ensures x in xs ==> r == xs
    ensures x !in xs ==> r == xs + [x]
  {
    if x in xs then xs else xs + [x]
  }

  /** Starting an entity that appears at most once leaves it there exactly once and nobody else changes. */
  lemma AddIfAbsentOnce<T>(xs: seq<T>, x: T)
    requires multiset(xs)[x] <= 1
    ensures multiset(AddIfAbsent(xs, x))[x] == 1
    ensures forall y :: y != x ==> multiset(AddIfAbsent(xs, x))[y] == multiset(xs)[y]
  {
  }

  /**
   * Start then end: an entity that appeared at most once is gone afterwards and
   * every other entity keeps its count; one that was absent leaves the list exactly as it was.
   */
  lemma StartThenEnd<T>(xs: seq<T>, x: T)
    requires multiset(xs)[x] <= 1
    ensures x !in RemoveFirst(AddIfAbsent(xs, x), x)
    ensures forall y :: y != x ==> multiset(RemoveFirst(AddIfAbsent(xs, x), x))[y] == multiset(xs)[y]
    ensures x !in xs ==> RemoveFirst(AddIfAbsent(xs, x), x) == xs
  {
    var r := RemoveFirst(AddIfAbsent(xs, x), x);
    assert multiset(r)[x] == 0;
    if x !in xs {
      RemoveFirstLast(xs, x);
    }
  }

  /**
   * Removing `x` from `a + [x] + b`, where `a` holds no `x`, leaves `a + b`:
   * exactly the first occurrence goes and the others keep their order.
   */
  lemma {:induction false} RemoveFirstSplits<T>(a: seq<T>, x: T, b: seq<T>)
    requires x !in a
    ensures RemoveFirst(a + [x] + b, x) == a + b
  {
    var s := a + [x] + b;
    if a == [] {
      assert s == [x] + b;
    } else {
      var t := a[1..] + [x] + b;
      assert s == [a[0]] + t;
      assert s[0] == a[0] && s[1..] == t;
      RemoveFirstSplits(a[1..], x, b);
      ConsAppend(a, b);
    }
  }

  /** Removing an element just appended to a list without it gives the list back. */
  lemma RemoveFirstLast<T>(xs: seq<T>, x: T)
    requires x !in xs
    ensures RemoveFirst(xs + [x], x) == xs
  {
    RemoveFirstSplits(xs, x, []);
    assert xs + [x] + [] == xs + [x];
    assert xs + [] == xs;
  }

  lemma ConsAppend<T>(a: seq<T>, b: seq<T>)
    requires a != []
    ensures a + b == [a[0]] + (a[1..] + b)
  {
    assert a == [a[0]] + a[1..];
  }

  class ShakeEntity {
    const remix: Remix
    var bounds: Rect
    var semitone: int
    const isStretchable: bool
    const canBeRepitched: bool
    const showPitchOnTooltip: bool

    /** A new entity: the zero rectangle of `Entity` with `bounds.height = 1f` from `init`, semitone 0. */
    constructor (remix: Remix)
      ensures this.remix == remix
      ensures bounds == Rect(0.0, 0.0, 0.0, 1.0) && semitone == 0
      ensures isStretchable && canBeRepitched && !showPitchOnTooltip
    {
      this.remix := remix;
      bounds := Rect(0.0, 0.0, 0.0, 1.0);
      semitone := 0;
      isStretchable := true;
      canBeRepitched := true;
      showPitchOnTooltip := false;
    }

    /** `onStart`: the entity is listed once, and a repeated start does not list it again. */
    method OnStart()
      modifies remix`currentShakeEntities
      ensures remix.currentShakeEntities == AddIfAbsent(old(remix.currentShakeEntities), this)
    {
      if this !in remix.currentShakeEntities {
        remix.currentShakeEntities := remix.currentShakeEntities + [this];
      }
    }

    /** `whilePlaying` does nothing. */
    method WhilePlaying()
    {
    }

    /** `onEnd`: `currentShakeEntities -= this`. */
    method OnEnd()
      modifies remix`currentShakeEntities
      ensures remix.currentShakeEntities == RemoveFirst(old(remix.currentShakeEntities), this)
    {
      remix.currentShakeEntities := RemoveFirst(remix.currentShakeEntities, this);
    }

    /** `copy`: a new entity in the given remix with the same bounds and semitone. */
    method Copy(target: Remix) returns (e: ShakeEntity)
      ensures fresh(e)
      ensures e.remix == target && e.bounds == bounds && e.semitone == semitone
      ensures e.isStretchable && e.canBeRepitched && !e.showPitchOnTooltip
    {
      e := new ShakeEntity(target);
      e.bounds := bounds;
      e.semitone := semitone;
    }
  }
}
