/**
 * The two undoable edits that put entities into a remix and take them out again.
 * `Remix.addEntities` is modelled as appending the list, and
 * `Remix.removeEntities` as dropping every entity whose identity is in the list.
 */
module EntityActions {
  import opened Track

  /** `removeEntities`: the entities whose identity is not listed, in their order. */
  function RemoveAll(es: seq<Entity>, ids: seq<EntityId>): (r: seq<Entity>)
    ensures |r| <= |es|
    ensures forall x :: x in r <==> x in es && x.id !in ids
  {
    if es == [] then []
    else (if es[0].id in ids then [] else [es[0]]) + RemoveAll(es[1..], ids)
  }

  lemma {:induction false} RemoveAllAppend(a: seq<Entity>, b: seq<Entity>, ids: seq<EntityId>)
    ensures RemoveAll(a + b, ids) == RemoveAll(a, ids) + RemoveAll(b, ids)
  {
    if a == [] {
      assert a + b == b;
    } else {
      assert (a + b)[0] == a[0];
      assert (a + b)[1..] == a[1..] + b;
      RemoveAllAppend(a[1..], b, ids);
    }
  }

  /** Removing identities none of the entities carries changes nothing. */
  lemma {:induction false} RemoveAllAbsent(es: seq<Entity>, ids: seq<EntityId>)
    requires forall e :: e in es ==> e.id !in ids
    ensures RemoveAll(es, ids) == es
  {
    if es != [] {
      assert es[0] in es;
      forall e | e in es[1..] ensures e.id !in ids {
        assert e in es;
      }
      RemoveAllAbsent(es[1..], ids);
    }
  }

  /** Removing a list's own identities from it leaves nothing. */
  lemma RemoveAllOwn(es: seq<Entity>)
    ensures RemoveAll(es, Ids(es)) == []
  {
    var r := RemoveAll(es, Ids(es));
    if r != [] {
      var e := r[0];
      assert e in r;
      IdInIds(es, e.id);
    }
  }

  /** `entity.bounds.set(b)` seen through the remix: every entity with this identity gets bounds `b`. */
  function SetBounds(es: seq<Entity>, id: EntityId, b: Rect): seq<Entity>
  {
    seq(|es|, k requires 0 <= k < |es| => if es[k].id == id then es[k].(bounds := b) else es[k])
  }

  /** The collection after the first `n` steps of `forEachIndexed { i, e -> e.bounds.set(oldPos[i]) }`. */
  function Restore(es: seq<Entity>, acts: seq<Entity>, oldPos: seq<Rect>, n: nat): seq<Entity>
    requires n <= |acts| <= |oldPos|
  {
    if n == 0 then es else SetBounds(Restore(es, acts, oldPos, n - 1), acts[n - 1].id, oldPos[n - 1])
  }

  /**
   * With the listed entities distinct, restoring gives the `i`-th listed entity
   * the bounds `oldPos[i]` wherever it occurs and leaves every other entity as it
   * was; entities keep their identity, kind and position in the list.
   */
  lemma {:induction false} RestoreEffect(es: seq<Entity>, acts: seq<Entity>, oldPos: seq<Rect>, n: nat)
    requires n <= |acts| <= |oldPos| && DistinctIds(acts)
    ensures var r := Restore(es, acts, oldPos, n);
      && |r| == |es|
      && (forall k :: 0 <= k < |es| ==> r[k].id == es[k].id && r[k].kind == es[k].kind)
      && (forall k, i :: 0 <= k < |es| && 0 <= i < n && acts[i].id == es[k].id ==>
            r[k] == es[k].(bounds := oldPos[i]))
      && (forall k :: 0 <= k < |es| && es[k].id !in Ids(acts[..n]) ==> r[k] == es[k])
  {
    if n > 0 {
      RestoreEffect(es, acts, oldPos, n - 1);
      var prev := Restore(es, acts, oldPos, n - 1);
      var r := Restore(es, acts, oldPos, n);
      assert r == SetBounds(prev, acts[n - 1].id, oldPos[n - 1]);
      forall k | 0 <= k < |es| && es[k].id !in Ids(acts[..n])
        ensures r[k] == es[k]
      {
        assert acts[..n - 1] == acts[..n][..n - 1];
        assert Ids(acts[..n])[n - 1] == acts[n - 1].id;
      }
      forall k, i | 0 <= k < |es| && 0 <= i < n && acts[i].id == es[k].id
        ensures r[k] == es[k].(bounds := oldPos[i])
      {
        if i < n - 1 {
          assert acts[i].id != acts[n - 1].id;
        }
      }
    }
  }

  /** `EntityPlaceAction`: the editor reference is not modelled. */
  class EntityPlaceAction {
    const entities: seq<Entity>

    constructor (entities: seq<Entity>)
      ensures this.entities == entities
    {
      this.entities := entities;
    }

    /** `redo`: the listed entities are added to the remix. */
    method Redo(context: Remix)
      modifies context`entities
      ensures context.entities == old(context.entities) + entities
    {
      context.entities := context.entities + entities;
    }

    /** `undo`: the listed entities are removed from the remix. */
    method Undo(context: Remix)
      modifies context`entities
      ensures context.entities == RemoveAll(old(context.entities), Ids(entities))
    {
      context.entities := RemoveAll(context.entities, Ids(entities));
    }
  }

  /** Placing entities that were absent and then undoing restores the collection exactly. */
  lemma PlaceUndoRestores(es: seq<Entity>, acts: seq<Entity>)
    requires forall e :: e in es ==> e.id !in Ids(acts)
    ensures RemoveAll(es + acts, Ids(acts)) == es
  {
    RemoveAllAppend(es, acts, Ids(acts));
    RemoveAllAbsent(es, Ids(acts));
    RemoveAllOwn(acts);
  }

  /** `EntityRemoveAction`: `oldPos[i]` is the bounds the `i`-th entity had when it was removed. */
  class EntityRemoveAction {
    const entities: seq<Entity>
    const oldPos: seq<Rect>

    constructor (entities: seq<Entity>, oldPos: seq<Rect>)
      ensures this.entities == entities && this.oldPos == oldPos
    {
      this.entities := entities;
      this.oldPos := oldPos;
    }

    /** `redo`: the listed entities are removed; no bounds change. */
    method Redo(context: Remix)
      modifies context`entities
      ensures context.entities == RemoveAll(old(context.entities), Ids(entities))
    {
      context.entities := RemoveAll(context.entities, Ids(entities));
    }

    /** `undo`: the listed entities are added back, then each gets its recorded bounds. */
    method Undo(context: Remix)
      requires |entities| <= |oldPos|
      modifies context`entities
      ensures context.entities == Restore(old(context.entities) + entities, entities, oldPos, |entities|)
    {
      context.entities := context.entities + entities;
      ghost var added := context.entities;
      for i := 0 to |entities|
        invariant context.entities == Restore(added, entities, oldPos, i)
      {
        context.entities := SetBounds(context.entities, entities[i].id, oldPos[i]);
      }
    }
  }

  /**
   * Removing distinct entities taken from the remix, with `oldPos` holding their
   * bounds, and then undoing gives back the same entities with the same bounds;
   * only their place in the list changes (they now come last).
   */
  lemma RemoveUndoRestores(es: seq<Entity>, acts: seq<Entity>, oldPos: seq<Rect>)
    requires DistinctIds(es) && DistinctIds(acts) && |oldPos| == |acts|
    requires forall i :: 0 <= i < |acts| ==> acts[i] in es && oldPos[i] == acts[i].bounds
    ensures Restore(RemoveAll(es, Ids(acts)) + acts, acts, oldPos, |acts|) == RemoveAll(es, Ids(acts)) + acts
    ensures forall x :: x in Restore(RemoveAll(es, Ids(acts)) + acts, acts, oldPos, |acts|) <==> x in es
  {
    var kept := RemoveAll(es, Ids(acts));
    var before := kept + acts;
    var r := Restore(before, acts, oldPos, |acts|);
    RestoreEffect(before, acts, oldPos, |acts|);
    assert acts[..|acts|] == acts;
    forall k | 0 <= k < |before| ensures r[k] == before[k] {
      if k < |kept| {
        assert before[k] == kept[k] && kept[k] in kept;
      }
    }
    forall x | x in es ensures x in before {
      IdInIds(acts, x.id);
    }
  }
}
