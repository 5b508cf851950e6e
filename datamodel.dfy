/**
 * The container datamodels `Pattern` and `RandomCue`: their lazily computed
 * duration and repitchability, and the entities they create.
 */
module Datamodel {
  import opened Values

  /** A `CuePointer`: which cue, where in the container, and its pitch and volume. */
  datatype CuePointer = CuePointer(id: string, beat: real, duration: real, semitone: int, volume: int)

  /** What the sound database holds under an id, as far as `as? Cue` can tell. */
  datatype DatabaseObject = CueObject(repitchable: bool) | OtherObject

  /** The largest `key` over the cues, or None for no cues. */
  function MaxOf(cues: seq<CuePointer>, key: CuePointer -> real): (r: Option<real>)
    ensures r.None? <==> cues == []
    ensures r.Some? ==> forall i :: 0 <= i < |cues| ==> key(cues[i]) <= r.value
    ensures r.Some? ==> exists i :: 0 <= i < |cues| && key(cues[i]) == r.value
  {
    if cues == [] then None
    else
      var rest := MaxOf(cues[1..], key);
      if rest.None? || key(cues[0]) >= rest.value then
        assert rest.Some? ==> forall i :: 1 <= i < |cues| ==> key(cues[i]) <= rest.value by {
          if rest.Some? {
            forall i | 1 <= i < |cues| ensures key(cues[i]) <= rest.value {
              assert cues[i] == cues[1..][i - 1];
            }
          }
        }
        Some(key(cues[0]))
      else
        assert forall i :: 1 <= i < |cues| ==> key(cues[i]) <= rest.value by {
          forall i | 1 <= i < |cues| ensures key(cues[i]) <= rest.value {
            assert cues[i] == cues[1..][i - 1];
          }
        }
        assert exists i :: 0 <= i < |cues| && key(cues[i]) == rest.value by {
          var j :| 0 <= j < |cues[1..]| && key(cues[1..][j]) == rest.value;
          assert cues[j + 1] == cues[1..][j];
        }
        rest
  }

  function EndOf(c: CuePointer): real {
    c.beat + c.duration
  }

  function DurationOf(c: CuePointer): real {
    c.duration
  }

  /**
   * `Pattern.duration`: `cues.map { it.beat + it.duration }.maxOrNull()!!`.
   * None is the `!!` failure on an empty pattern.
   */
  function PatternDuration(cues: seq<CuePointer>): (r: Option<real>)
    ensures r.None? <==> cues == []
    ensures r.Some? ==> forall i :: 0 <= i < |cues| ==> cues[i].beat + cues[i].duration <= r.value
    ensures r.Some? ==> exists i :: 0 <= i < |cues| && cues[i].beat + cues[i].duration == r.value
  {
    MaxOf(cues, EndOf)
  }

  /** `RandomCue.duration`: the longest cue's own duration; beat offsets play no part. */
  function RandomCueDuration(cues: seq<CuePointer>): (r: Result<real>)
    ensures r.Err? <==> cues == []
    ensures r.Err? ==> r.message == "No cues found"
    ensures r.Ok? ==> forall i :: 0 <= i < |cues| ==> cues[i].duration <= r.value
    ensures r.Ok? ==> exists i :: 0 <= i < |cues| && cues[i].duration == r.value
  {
    match MaxOf(cues, DurationOf)
    case None => Err("No cues found")
    case Some(d) => Ok(d)
  }

  /**
   * With every cue at beat 0 the two durations agree; a pattern whose cues sit
   * at non-negative beats lasts at least as long as a random cue over the same cues.
   */
  lemma DurationsCompared(cues: seq<CuePointer>)
    requires cues != []
    requires forall i :: 0 <= i < |cues| ==> cues[i].beat >= 0.0
    ensures PatternDuration(cues).value >= RandomCueDuration(cues).value
    ensures (forall i :: 0 <= i < |cues| ==> cues[i].beat == 0.0) ==>
      PatternDuration(cues).value == RandomCueDuration(cues).value
  {
    var p := PatternDuration(cues).value;
    var d := RandomCueDuration(cues).value;
    var j :| 0 <= j < |cues| && cues[j].duration == d;
    assert cues[j].beat + cues[j].duration <= p;
    if forall i :: 0 <= i < |cues| ==> cues[i].beat == 0.0 {
      var k :| 0 <= k < |cues| && cues[k].beat + cues[k].duration == p;
      assert cues[k].duration <= d;
    }
  }

  /** The pointed-to object is a cue that can be repitched. */
  predicate IsRepitchableCue(c: CuePointer, objectMap: map<string, DatabaseObject>) {
    c.id in objectMap && objectMap[c.id] == CueObject(true)
  }

  /** `Pattern.repitchable`: `cues.any { (objectMap[it.id] as? Cue)?.repitchable == true }`. */
  function PatternRepitchable(cues: seq<CuePointer>, objectMap: map<string, DatabaseObject>): (r: bool)
    ensures r <==> exists i :: 0 <= i < |cues| && IsRepitchableCue(cues[i], objectMap)
  {
    if cues == [] then false
    else if IsRepitchableCue(cues[0], objectMap) then true
    else
      var rest := PatternRepitchable(cues[1..], objectMap);
      assert rest <==> exists i :: 1 <= i < |cues| && IsRepitchableCue(cues[i], objectMap) by {
        if rest {
          var j :| 0 <= j < |cues[1..]| && IsRepitchableCue(cues[1..][j], objectMap);
          assert cues[j + 1] == cues[1..][j];
        }
        if exists i :: 1 <= i < |cues| && IsRepitchableCue(cues[i], objectMap) {
          var i :| 1 <= i < |cues| && IsRepitchableCue(cues[i], objectMap);
          assert cues[1..][i - 1] == cues[i];
        }
      }
      rest
  }

  /** The settings of a freshly created container entity that `createEntity` may overwrite. */
  datatype EntitySettings = EntitySettings(semitone: int, volumePercent: int)

  /**
   * `createEntity` of `Pattern` and of `RandomCue`: the new entity starts from
   * its class's defaults, and a given cue pointer supplies semitone and volume.
   */
  function CreateEntity(defaults: EntitySettings, cuePointer: Option<CuePointer>): (r: EntitySettings)
    ensures cuePointer.Some? ==> r.semitone == cuePointer.value.semitone && r.volumePercent == cuePointer.value.volume
    ensures cuePointer.None? ==> r == defaults
  {
    match cuePointer
    case None => defaults
    case Some(p) => EntitySettings(p.semitone, p.volume)
  }
}
