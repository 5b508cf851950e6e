/**
 * The remix state that the editor core reads and writes: placed entities with
 * their bounds, the playback and music offsets, the track count, and the list of
 * screen-shake entities that are currently playing.
 */
module Track {
  import opened Values

  /** A libGDX `Rectangle`: position and size on the beat (x) and track (y) grid. */
  datatype Rect = Rect(x: real, y: real, width: real, height: real)

  /**
   * `Rectangle.intersects`, the gdxutils extension: strict overlap on both axes,
   * so rectangles that only touch along an edge do not intersect.
   */
  predicate Intersects(a: Rect, b: Rect) {
    a.x < b.x + b.width && a.x + a.width > b.x &&
    a.y < b.y + b.height && a.y + a.height > b.y
  }

  /**
   * What the placement rules need to know of an entity's class:
   * `Special` is a model entity whose datamodel is special and which is not the
   * end-of-remix marker; `EndRemix` is an `EndRemixEntity`.
   */
  datatype EntityKind = Ordinary | Special | EndRemix

  /** Object identity of an entity (Kotlin's `===`). */
  type EntityId = nat

  datatype Entity = Entity(id: EntityId, kind: EntityKind, bounds: Rect)

  function Ids(es: seq<Entity>): (r: seq<EntityId>)
    ensures |r| == |es|
    ensures forall i :: 0 <= i < |es| ==> r[i] == es[i].id
  {
    if es == [] then [] else [es[0].id] + Ids(es[1..])
  }

  /** An identity is in the collection exactly when some entity there carries it. */
  lemma IdInIds(es: seq<Entity>, id: EntityId)
    ensures id in Ids(es) <==> exists i :: 0 <= i < |es| && es[i].id == id
  {
    if id in Ids(es) {
      var i :| 0 <= i < |Ids(es)| && Ids(es)[i] == id;
      assert es[i].id == id;
    }
  }

  /** No entity object occurs twice in the collection. */
  predicate DistinctIds(es: seq<Entity>) {
    forall i, j :: 0 <= i < j < |es| ==> es[i].id != es[j].id
  }

  predicate NoDuplicates(ids: seq<EntityId>) {
    forall i, j :: 0 <= i < j < |ids| ==> ids[i] != ids[j]
  }

  /** The remix fields that the modelled operations touch. */
  class Remix {
    var entities: seq<Entity>
    var playbackStart: Float
    var musicStartSec: Float
    var trackCount: int
    var currentShakeEntities: seq<object>

    constructor (entities: seq<Entity>, playbackStart: real, musicStartSec: real, trackCount: int)
      ensures this.entities == entities && this.trackCount == trackCount
      ensures this.playbackStart == Num(playbackStart) && this.musicStartSec == Num(musicStartSec)
      ensures currentShakeEntities == []
    {
      this.entities := entities;
      this.playbackStart := Num(playbackStart);
      this.musicStartSec := Num(musicStartSec);
      this.trackCount := trackCount;
      this.currentShakeEntities := [];
    }
  }
}
