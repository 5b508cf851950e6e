/**
 * The string side of loading a game definition (`mapToDatamodel`, where `*`
 * stands for the game's id) and of writing it back (`toJsonObject`, where the
 * game's id turns back into `*`).
 */
module GameMapper {
  import opened Values

  /** `replace("*", gameId)`: every `*` becomes the game's id. */
  function StarSubstitution(s: string, gameId: string): string {
    if s == [] then []
    else (if s[0] == '*' then gameId else [s[0]]) + StarSubstitution(s[1..], gameId)
  }

  /** Text without a `*` is left as it is. */
  lemma {:induction false} StarSubstitutionVerbatim(s: string, gameId: string)
    requires '*' !in s
    ensures StarSubstitution(s, gameId) == s
  {
    if s != [] {
      assert s == [s[0]] + s[1..];
      StarSubstitutionVerbatim(s[1..], gameId);
    }
  }

  /** With a game id free of `*`, no `*` survives the substitution. */
  lemma {:induction false} StarSubstitutionRemovesStars(s: string, gameId: string)
    requires '*' !in gameId
    ensures '*' !in StarSubstitution(s, gameId)
  {
    if s != [] {
      StarSubstitutionRemovesStars(s[1..], gameId);
    }
  }

  /** `replace` works character by character: it distributes over concatenation. */
  lemma {:induction false} StarSubstitutionAppend(a: string, b: string, gameId: string)
    ensures StarSubstitution(a + b, gameId) == StarSubstitution(a, gameId) + StarSubstitution(b, gameId)
  {
    if a == [] {
      assert a + b == b;
    } else {
      var h := if a[0] == '*' then gameId else [a[0]];
      calc {
        StarSubstitution(a + b, gameId);
      == { assert (a + b)[0] == a[0]; }
        h + StarSubstitution((a + b)[1..], gameId);
      == { assert (a + b)[1..] == a[1..] + b; }
        h + StarSubstitution(a[1..] + b, gameId);
      == { StarSubstitutionAppend(a[1..], b, gameId); }
        h + (StarSubstitution(a[1..], gameId) + StarSubstitution(b, gameId));
      ==
        (h + StarSubstitution(a[1..], gameId)) + StarSubstitution(b, gameId);
      }
    }
  }

  /** The list overload: `map(String::starSubstitution)`. */
  function StarSubstitutionAll(xs: seq<string>, gameId: string): (r: seq<string>)
    ensures |r| == |xs|
    ensures forall i :: 0 <= i < |xs| ==> r[i] == StarSubstitution(xs[i], gameId)
  {
    seq(|xs|, i requires 0 <= i < |xs| => StarSubstitution(xs[i], gameId))
  }

  /** `d` occurs in `s` starting at index `i`. */
  predicate OccursAt(s: string, d: string, i: nat) {
    i + |d| <= |s| && s[i..i + |d|] == d
  }

  /** `indexOf(d, start)`: the first occurrence at or after `start`. */
  function IndexFrom(s: string, d: string, start: nat): (r: Option<nat>)
    decreases |s| - start
    ensures r.Some? ==> start <= r.value && OccursAt(s, d, r.value)
    ensures r.Some? ==> forall j :: start <= j < r.value ==> !OccursAt(s, d, j)
    ensures r.None? ==> forall j :: start <= j ==> !OccursAt(s, d, j)
  {
    if start + |d| > |s| then None
    else if OccursAt(s, d, start) then Some(start)
    else IndexFrom(s, d, start + 1)
  }

  /** `substringAfter(d)`: the text after the first occurrence of `d`, or all of `s` without one. */
  function SubstringAfter(s: string, d: string): (r: string)
    ensures IndexFrom(s, d, 0).Some? ==> r == s[IndexFrom(s, d, 0).value + |d|..]
    ensures IndexFrom(s, d, 0).None? ==> r == s
  {
    match IndexFrom(s, d, 0)
    case None => s
    case Some(i) => s[i + |d|..]
  }

  /** `starSubstitute` in `toJsonObject`: with the flag set, "*" and the text after the game's id. */
  function StarSubstitute(flag: bool, gameId: string, s: string): (r: string)
    ensures !flag ==> r == s
    ensures flag ==> r == "*" + SubstringAfter(s, gameId)
  {
    if !flag then s else "*" + SubstringAfter(s, gameId)
  }

  /** A string that starts with the game's id loses exactly that prefix. */
  lemma SubstringAfterPrefix(d: string, r: string)
    ensures SubstringAfter(d + r, d) == r
  {
    assert OccursAt(d + r, d, 0) by {
      assert (d + r)[0..|d|] == d;
    }
    assert (d + r)[|d|..] == r;
  }

  /**
   * Writing back what was loaded: an id `"*" + r` with no further `*` loads as
   * `gameId + r` and is written back as `"*" + r`, whatever the game's id is.
   */
  lemma StarRoundTrip(r: string, gameId: string)
    requires '*' !in r
    ensures StarSubstitute(true, gameId, StarSubstitution("*" + r, gameId)) == "*" + r
  {
    assert ("*" + r)[1..] == r;
    StarSubstitutionVerbatim(r, gameId);
    SubstringAfterPrefix(gameId, r);
  }

  /** An id with no `*` loads unchanged; and without the flag, writing is the identity. */
  lemma VerbatimRoundTrip(s: string, gameId: string)
    requires '*' !in s
    ensures StarSubstitute(false, gameId, StarSubstitution(s, gameId)) == s
  {
    StarSubstitutionVerbatim(s, gameId);
  }

  /** A game's language; `UNKNOWN` is written as no language at all. */
  datatype Language = Unknown | Known(code: string)

  /** `language?.takeUnless { it == Language.UNKNOWN }?.code` */
  function LanguageCode(language: Option<Language>): (r: Option<string>)
    ensures r.None? <==> language.None? || language.value.Unknown?
    ensures r.Some? ==> r.value == language.value.code
  {
    match language
    case None => None
    case Some(Unknown) => None
    case Some(Known(code)) => Some(code)
  }

  /**
   * `BaseBpmRules.MAP[obj.baseBpmRules ?: BaseBpmRules.ALWAYS.id] ?: error(...)`.
   * The enum's id table is `rules`, and `alwaysId` is the id of `ALWAYS`.
   */
  function ResolveBaseBpmRules<R>(field: Option<string>, rules: map<string, R>, alwaysId: string): (r: Result<R>)
    ensures field.None? && alwaysId in rules ==> r == Ok(rules[alwaysId])
    ensures field.Some? && field.value in rules ==> r == Ok(rules[field.value])
    ensures field.Some? && field.value !in rules ==> r == Err("Unrecognized baseBpmRules value: " + field.value)
    ensures r.Ok? <==> (if field.Some? then field.value else alwaysId) in rules
  {
    var key := if field.Some? then field.value else alwaysId;
    if key in rules then Ok(rules[key])
    else Err("Unrecognized baseBpmRules value: " + (if field.Some? then field.value else "null"))
  }

  /** The datamodel classes `toJsonObject` distinguishes; `Other` is any class it does not. */
  datatype DatamodelKind =
    | Cue | Equidistant | KeepTheBeat | Pattern | RandomCue | EndRemix
    | Subtitle | ShakeScreen | TextureModel | TapeMeasure | Playalong
    | MusicDistort | PitchBender | PitchDependent
    | Other

  /** The classes whose id is written with the game's id turned back into `*`. */
  predicate Substituted(kind: DatamodelKind) {
    kind in {Cue, Equidistant, KeepTheBeat, Pattern, RandomCue, EndRemix}
  }

  /** The id `toJsonObject` writes for a datamodel of this class, or its error for an unknown class. */
  function JsonId(kind: DatamodelKind, flag: bool, gameId: string, id: string): (r: Result<string>)
    ensures Substituted(kind) ==> r == Ok(StarSubstitute(flag, gameId, id))
    ensures !Substituted(kind) && kind != Other ==> r == Ok(id)
    ensures kind == Other <==> r.Err?
  {
    if kind == Other then Err("Datamodel not defined for JSON mapping")
    else if Substituted(kind) then Ok(StarSubstitute(flag, gameId, id))
    else Ok(id)
  }

  /** The sound references of a cue that star substitution touches. */
  datatype CueSounds = CueSounds(introSound: Option<string>, endingSound: Option<string>, responseIds: seq<string>)

  function MapOption(o: Option<string>, f: string -> string): Option<string> {
    match o
    case None => None
    case Some(s) => Some(f(s))
  }

  /** The cue branch of `mapToDatamodel`: `introSound?.starSubstitution()` and so on. */
  function LoadCueSounds(c: CueSounds, gameId: string): (r: CueSounds)
    ensures r.introSound.Some? <==> c.introSound.Some?
    ensures c.introSound.Some? ==> r.introSound.value == StarSubstitution(c.introSound.value, gameId)
    ensures r.endingSound.Some? <==> c.endingSound.Some?
    ensures c.endingSound.Some? ==> r.endingSound.value == StarSubstitution(c.endingSound.value, gameId)
    ensures r.responseIds == StarSubstitutionAll(c.responseIds, gameId)
  {
    CueSounds(MapOption(c.introSound, s => StarSubstitution(s, gameId)),
              MapOption(c.endingSound, s => StarSubstitution(s, gameId)),
              StarSubstitutionAll(c.responseIds, gameId))
  }

  /** The cue branch of `toJsonObject`: `introSound?.starSubstitute()` and `responseIDs.map(String::starSubstitute)`. */
  function SaveCueSounds(c: CueSounds, flag: bool, gameId: string): (r: CueSounds)
    ensures r.introSound.Some? <==> c.introSound.Some?
    ensures c.introSound.Some? ==> r.introSound.value == StarSubstitute(flag, gameId, c.introSound.value)
    ensures r.endingSound.Some? <==> c.endingSound.Some?
    ensures c.endingSound.Some? ==> r.endingSound.value == StarSubstitute(flag, gameId, c.endingSound.value)
    ensures |r.responseIds| == |c.responseIds|
    ensures forall i :: 0 <= i < |c.responseIds| ==> r.responseIds[i] == StarSubstitute(flag, gameId, c.responseIds[i])
  {
    CueSounds(MapOption(c.introSound, s => StarSubstitute(flag, gameId, s)),
              MapOption(c.endingSound, s => StarSubstitute(flag, gameId, s)),
              seq(|c.responseIds|, i requires 0 <= i < |c.responseIds| => StarSubstitute(flag, gameId, c.responseIds[i])))
  }

  /** A `*` followed by text without another `*`. */
  predicate StarForm(s: string) {
    s != [] && s[0] == '*' && '*' !in s[1..]
  }

  /** Cue sounds written in star form come back unchanged from a load followed by a save. */
  lemma CueSoundsRoundTrip(c: CueSounds, gameId: string)
    requires c.introSound.Some? ==> StarForm(c.introSound.value)
    requires c.endingSound.Some? ==> StarForm(c.endingSound.value)
    requires forall i :: 0 <= i < |c.responseIds| ==> StarForm(c.responseIds[i])
    ensures SaveCueSounds(LoadCueSounds(c, gameId), true, gameId) == c
  {
    forall s | StarForm(s)
      ensures StarSubstitute(true, gameId, StarSubstitution(s, gameId)) == s
    {
      assert s == "*" + s[1..];
      StarRoundTrip(s[1..], gameId);
    }
    var back := SaveCueSounds(LoadCueSounds(c, gameId), true, gameId);
    assert back.responseIds == c.responseIds;
  }
}
