/** The tap-along tempo estimator of the editor. */
module Tapalong {
  import opened Values
  import Decimal

  const AutoResetSeconds: int := 5
  const MaxInputs: nat := 4096

  /** One tap: the stage's own clock and, while the remix plays, its position in the music. */
  datatype TapRecord = TapRecord(sec: real, remixSec: Float)

  /** Taps in strictly increasing time order, so no two share a `sec`. */
  predicate StrictlySorted(rs: seq<TapRecord>) {
    forall i, j :: 0 <= i < j < |rs| ==> rs[i].sec < rs[j].sec
  }

  predicate HasTapAt(rs: seq<TapRecord>, sec: real) {
    exists i :: 0 <= i < |rs| && rs[i].sec == sec
  }

  /** The list after `while (size >= MAX_INPUTS) removeAt(0)`. */
  function Evicted(rs: seq<TapRecord>): (r: seq<TapRecord>)
    ensures |r| < MaxInputs
    ensures |rs| < MaxInputs ==> r == rs
    ensures |rs| >= MaxInputs ==> |r| == MaxInputs - 1
    ensures r == rs[|rs| - |r|..]
  {
    if |rs| >= MaxInputs then rs[|rs| - (MaxInputs - 1)..] else rs
  }

  /** Dropping the oldest records keeps the rest in order. */
  lemma EvictedSorted(rs: seq<TapRecord>)
    requires StrictlySorted(rs)
    ensures StrictlySorted(Evicted(rs))
  {
    if |rs| >= MaxInputs {
      var d := |rs| - (MaxInputs - 1);
      var kept := rs[d..];
      forall i, j | 0 <= i < j < |kept| ensures kept[i].sec < kept[j].sec {
        assert kept[i] == rs[d + i] && kept[j] == rs[d + j];
      }
      assert kept == Evicted(rs);
    }
  }

  /**
   * `sortBy { it.sec }` applied to a sorted list with one new record appended:
   * the record goes in after every earlier tap.
   */
  function InsertBySec(rs: seq<TapRecord>, r: TapRecord): (out: seq<TapRecord>)
    requires StrictlySorted(rs) && !HasTapAt(rs, r.sec)
    ensures StrictlySorted(out)
    ensures multiset(out) == multiset(rs + [r])
    ensures |out| == |rs| + 1
  {
    if rs == [] then [r]
    else if r.sec < rs[0].sec then [r] + rs
    else
      TailStillSorted(rs, r.sec);
      var rest := InsertBySec(rs[1..], r);
      InsertAfterHead(rs, r, rest);
      [rs[0]] + rest
  }

  lemma TailStillSorted(rs: seq<TapRecord>, sec: real)
    requires rs != [] && StrictlySorted(rs) && !HasTapAt(rs, sec)
    ensures StrictlySorted(rs[1..]) && !HasTapAt(rs[1..], sec)
  {
    var t := rs[1..];
    forall i, j | 0 <= i < j < |t| ensures t[i].sec < t[j].sec {
      assert t[i] == rs[i + 1] && t[j] == rs[j + 1];
    }
  }

  /** The head of the list stays in front when the new record is later than it. */
  lemma InsertAfterHead(rs: seq<TapRecord>, r: TapRecord, rest: seq<TapRecord>)
    requires rs != [] && StrictlySorted(rs) && !HasTapAt(rs, r.sec) && r.sec >= rs[0].sec
    requires StrictlySorted(rest) && multiset(rest) == multiset(rs[1..] + [r])
    ensures StrictlySorted([rs[0]] + rest)
    ensures multiset([rs[0]] + rest) == multiset(rs + [r])
  {
    assert rs == [rs[0]] + rs[1..];
    assert rs + [r] == [rs[0]] + (rs[1..] + [r]);
    assert r.sec != rs[0].sec;
    var out := [rs[0]] + rest;
    forall k | 0 <= k < |rest| ensures rs[0].sec < rest[k].sec {
      assert rest[k] in multiset(rs[1..] + [r]);
      assert rest[k] in rs[1..] + [r];
      if rest[k] != r {
        var i :| 0 <= i < |rs[1..]| && rs[1..][i] == rest[k];
        assert rs[i + 1] == rest[k];
      }
    }
    forall i, j | 0 <= i < j < |out| ensures out[i].sec < out[j].sec {
      if i == 0 {
        assert out[j] == rest[j - 1];
      } else {
        assert out[i] == rest[i - 1] && out[j] == rest[j - 1];
      }
    }
  }

  /**
   * The records after a tap at `sec` on the stage's clock, starting from the
   * records left after a possible auto-reset.
   */
  function AfterTap(base: seq<TapRecord>, sec: real, remixSec: Float): (r: seq<TapRecord>)
    requires StrictlySorted(base)
    ensures StrictlySorted(r) && |r| <= MaxInputs
    ensures HasTapAt(Evicted(base), sec) ==> r == Evicted(base)
    ensures !HasTapAt(Evicted(base), sec) ==>
      multiset(r) == multiset(Evicted(base) + [TapRecord(sec, remixSec)])
  {
    var kept := Evicted(base);
    EvictedSorted(base);
    if HasTapAt(kept, sec) then kept else InsertBySec(kept, TapRecord(sec, remixSec))
  }

  /** After a tap, a record sits at the tap's time, and every record that survived eviction is still there. */
  lemma TapIsRecorded(base: seq<TapRecord>, sec: real, remixSec: Float)
    requires StrictlySorted(base)
    ensures HasTapAt(AfterTap(base, sec, remixSec), sec)
    ensures forall r :: r in Evicted(base) ==> r in AfterTap(base, sec, remixSec)
  {
    var after := AfterTap(base, sec, remixSec);
    if !HasTapAt(Evicted(base), sec) {
      var added := TapRecord(sec, remixSec);
      assert added in multiset(after);
      var i :| 0 <= i < |after| && after[i] == added;
      assert after[i].sec == sec;
      forall r | r in Evicted(base) ensures r in after {
        assert r in multiset(Evicted(base) + [added]);
      }
    }
  }

  /** `tapRecords.drop(1).mapIndexed { i, rec -> rec.sec - tapRecords[i].sec }` */
  function Deltas(rs: seq<TapRecord>): (ds: seq<real>)
    requires |rs| >= 2
    ensures |ds| == |rs| - 1
  {
    seq(|rs| - 1, i requires 0 <= i < |rs| - 1 => rs[i + 1].sec - rs[i].sec)
  }

  /** Consecutive taps of a sorted list are apart by a positive time. */
  lemma DeltasPositive(rs: seq<TapRecord>)
    requires |rs| >= 2 && StrictlySorted(rs)
    ensures forall i :: 0 <= i < |Deltas(rs)| ==> Deltas(rs)[i] > 0.0
  {
  }

  function Sum(xs: seq<real>): real {
    if xs == [] then 0.0 else xs[0] + Sum(xs[1..])
  }

  /** `average()` */
  function Mean(xs: seq<real>): real
    requires |xs| > 0
  {
    Sum(xs) / (|xs| as real)
  }

  /** `60.0 / delta` for every delta. */
  function Bpms(ds: seq<real>): (bs: seq<real>)
    requires forall i :: 0 <= i < |ds| ==> ds[i] > 0.0
    ensures |bs| == |ds|
  {
    seq(|ds|, i requires 0 <= i < |ds| => 60.0 / ds[i])
  }

  /** The population variance of the deltas (mean squared distance from their mean). */
  function PopVariance(ds: seq<real>): (v: real)
    requires |ds| > 0
  {
    var m := Mean(ds);
    Mean(seq(|ds|, i requires 0 <= i < |ds| => (ds[i] - m) * (ds[i] - m)))
  }

  /** The tempo the stage reports for a sorted list of at least two taps: the mean of the per-interval BPMs. */
  function MeanBpm(rs: seq<TapRecord>): real
    requires |rs| >= 2 && StrictlySorted(rs)
  {
    DeltasPositive(rs);
    Mean(Bpms(Deltas(rs)))
  }

  lemma {:induction false} SumConstant(xs: seq<real>, c: real)
    requires forall i :: 0 <= i < |xs| ==> xs[i] == c
    ensures Sum(xs) == (|xs| as real) * c
  {
    if xs != [] {
      SumConstant(xs[1..], c);
    }
  }

  lemma MeanConstant(xs: seq<real>, c: real)
    requires |xs| > 0 && forall i :: 0 <= i < |xs| ==> xs[i] == c
    ensures Mean(xs) == c
  {
    SumConstant(xs, c);
    var n := |xs| as real;
    assert Sum(xs) == n * c;
    assert (n * c) / n == c;
  }

  /** Equal intervals: the mean BPM is `60 / d`. */
  lemma SteadyTempo(ds: seq<real>, d: real)
    requires |ds| > 0 && d > 0.0 && forall i :: 0 <= i < |ds| ==> ds[i] == d
    ensures Mean(Bpms(ds)) == 60.0 / d
  {
    var bs := Bpms(ds);
    assert forall i :: 0 <= i < |bs| ==> bs[i] == 60.0 / d;
    MeanConstant(bs, 60.0 / d);
  }

  /** Equal intervals: the spread is zero. */
  lemma SteadyVariance(ds: seq<real>, d: real)
    requires |ds| > 0 && forall i :: 0 <= i < |ds| ==> ds[i] == d
    ensures PopVariance(ds) == 0.0
  {
    MeanConstant(ds, d);
    var m := Mean(ds);
    var sq := seq(|ds|, i requires 0 <= i < |ds| => (ds[i] - m) * (ds[i] - m));
    assert forall i :: 0 <= i < |sq| ==> sq[i] == 0.0;
    MeanConstant(sq, 0.0);
  }

  /** Steady taps, `d` seconds apart, give a tempo of `60 / d` and no spread. */
  lemma SteadyTaps(rs: seq<TapRecord>, d: real)
    requires |rs| >= 2 && StrictlySorted(rs)
    requires forall i :: 0 <= i < |rs| - 1 ==> rs[i + 1].sec - rs[i].sec == d
    ensures d > 0.0
    ensures MeanBpm(rs) == 60.0 / d
    ensures PopVariance(Deltas(rs)) == 0.0
  {
    var ds := Deltas(rs);
    assert ds[0] == d;
    DeltasPositive(rs);
    assert forall i :: 0 <= i < |ds| ==> ds[i] == d;
    SteadyTempo(ds, d);
    SteadyVariance(ds, d);
  }

  /** At least two taps, every one the same time after the one before. */
  predicate EvenlySpaced(rs: seq<TapRecord>) {
    |rs| >= 2 && forall i :: 0 <= i < |rs| - 1 ==> Deltas(rs)[i] == Deltas(rs)[0]
  }

  /**
   * Evenly spaced taps: with `sqrt(0) = 0`, the deviation `tap()` stores is 0 ms
   * and the tempo is 60 over the spacing.
   */
  lemma SteadySpread(rs: seq<TapRecord>, sqrt: real -> real)
    requires StrictlySorted(rs) && EvenlySpaced(rs)
    requires sqrt(0.0) == 0.0
    ensures sqrt(PopVariance(Deltas(rs))) * 1000.0 == 0.0
    ensures MeanBpm(rs) == 60.0 / (rs[1].sec - rs[0].sec)
  {
    var ds := Deltas(rs);
    DeltasPositive(rs);
    assert ds[0] == rs[1].sec - rs[0].sec;
    SteadyTempo(ds, ds[0]);
    SteadyVariance(ds, ds[0]);
  }

  /** Taps at 0.0, 0.5, 1.0 and 1.5 seconds read as 120 BPM with no spread. */
  lemma HalfSecondTaps()
    ensures var rs := [TapRecord(0.0, NaN), TapRecord(0.5, NaN), TapRecord(1.0, NaN), TapRecord(1.5, NaN)];
      StrictlySorted(rs) && MeanBpm(rs) == 120.0 && PopVariance(Deltas(rs)) == 0.0
  {
    var rs := [TapRecord(0.0, NaN), TapRecord(0.5, NaN), TapRecord(1.0, NaN), TapRecord(1.5, NaN)];
    SteadyTaps(rs, 0.5);
  }

  /** The text of the big tempo label for the given records. */
  function TempoLabel(rs: seq<TapRecord>, tempo: real, firstText: string): (s: string)
    ensures rs == [] ==> s == "0"
    ensures |rs| == 1 ==> s == firstText
    ensures |rs| >= 2 ==> s == Decimal.IntToString(RoundHalfUp(tempo))
  {
    if rs == [] then "0" else if |rs| == 1 then firstText else Decimal.IntToString(RoundHalfUp(tempo))
  }

  /** Records exist and at least `AUTO_RESET_SECONDS` of wall-clock time have passed since the last tap. */
  predicate AutoResetDue(rs: seq<TapRecord>, lastTapMillis: int, nowMillis: int) {
    rs != [] && nowMillis - lastTapMillis >= 1000 * AutoResetSeconds
  }

  /** The records a tap starts from: none after an auto-reset. */
  function ResetBase(rs: seq<TapRecord>, lastTapMillis: int, nowMillis: int): seq<TapRecord> {
    if AutoResetDue(rs, lastTapMillis, nowMillis) then [] else rs
  }

  /** The music position stored with a tap: `seconds - musicStartSec` while playing, NaN otherwise. */
  function RemixSec(playing: bool, remixSeconds: real, musicStartSec: Float): Float {
    if playing && musicStartSec.Num? then Num(remixSeconds - musicStartSec.value) else NaN
  }

  class TapalongStage {
    var tapRecords: seq<TapRecord>
    var tempo: real
    var stdDeviation: real
    /** Wall-clock milliseconds of the last tap. */
    var timeSinceLastTap: int
    /** The stage's own clock in seconds, advanced by `render`. */
    var internalTimekeeper: real
    var tempoLabel: string
    /** The localized "first tap" text. */
    const firstText: string

    ghost predicate Valid()
      reads this
    {
      StrictlySorted(tapRecords) && |tapRecords| <= MaxInputs
    }

    constructor (nowMillis: int, firstText: string)
      ensures Valid()
      ensures tapRecords == [] && tempo == 0.0 && stdDeviation == 0.0
      ensures timeSinceLastTap == nowMillis && internalTimekeeper == 0.0
      ensures this.firstText == firstText && tempoLabel == "0"
    {
      tapRecords := [];
      tempo := 0.0;
      stdDeviation := 0.0;
      timeSinceLastTap := nowMillis;
      internalTimekeeper := 0.0;
      this.firstText := firstText;
      tempoLabel := "0";
    }

    /** `roundedTempo` */
    function RoundedTempo(): int
      reads this
    {
      RoundHalfUp(tempo)
    }

    /** `render`'s clock step: the frame's `deltaTime` is passed in. */
    method AdvanceTimekeeper(deltaTime: real)
      modifies this`internalTimekeeper
      ensures internalTimekeeper == old(internalTimekeeper) + deltaTime
    {
      internalTimekeeper := internalTimekeeper + deltaTime;
    }

    method UpdateLabels()
      modifies this`tempoLabel
      ensures tempoLabel == TempoLabel(tapRecords, tempo, firstText)
    {
      if tapRecords == [] {
        tempoLabel := "0";
      } else if |tapRecords| == 1 {
        tempoLabel := firstText;
      } else {
        tempoLabel := Decimal.IntToString(RoundedTempo());
      }
    }

    method Reset()
      modifies this`tapRecords, this`tempo, this`stdDeviation, this`tempoLabel
      ensures Valid()
      ensures tapRecords == [] && tempo == 0.0 && stdDeviation == 0.0
      ensures tempoLabel == "0"
    {
      tapRecords := [];
      tempo := 0.0;
      stdDeviation := 0.0;
      UpdateLabels();
    }

    /** `while (tapRecords.size >= MAX_INPUTS) tapRecords.removeAt(0)` */
    method EvictOldest()
      requires StrictlySorted(tapRecords)
      modifies this`tapRecords
      ensures tapRecords == Evicted(old(tapRecords))
      ensures StrictlySorted(tapRecords)
    {
      ghost var start := tapRecords;
      while |tapRecords| >= MaxInputs
        invariant StrictlySorted(tapRecords)
        invariant |tapRecords| <= |start| && tapRecords == start[|start| - |tapRecords|..]
        invariant |start| >= MaxInputs ==> |tapRecords| >= MaxInputs - 1
        invariant |start| < MaxInputs ==> tapRecords == start
        decreases |tapRecords|
      {
        tapRecords := tapRecords[1..];
      }
    }

    /** Evicts the oldest records, then adds a record unless one already has this `sec`. */
    method AddTap(sec: real, remixSec: Float)
      requires StrictlySorted(tapRecords)
      modifies this`tapRecords
      ensures tapRecords == AfterTap(old(tapRecords), sec, remixSec)
      ensures StrictlySorted(tapRecords)
    {
      EvictOldest();
      if !HasTapAt(tapRecords, sec) {
        tapRecords := InsertBySec(tapRecords, TapRecord(sec, remixSec));
      }
    }

    /** With at least two records, the tempo is the mean per-interval BPM and the spread the deltas' deviation in ms. */
    method UpdateStatistics(sqrt: real -> real)
      requires StrictlySorted(tapRecords)
      modifies this`tempo, this`stdDeviation
      ensures |tapRecords| >= 2 ==>
        tempo == MeanBpm(tapRecords) && stdDeviation == sqrt(PopVariance(Deltas(tapRecords))) * 1000.0
      ensures |tapRecords| < 2 ==> tempo == old(tempo) && stdDeviation == old(stdDeviation)
    {
      if |tapRecords| >= 2 {
        var deltas := Deltas(tapRecords);
        DeltasPositive(tapRecords);
        tempo := Mean(Bpms(deltas));
        stdDeviation := sqrt(PopVariance(deltas)) * 1000.0;
      }
    }

    /** The part of `tap()` after the auto-reset check. */
    method Record(nowMillis: int, sec: real, remixSec: Float, sqrt: real -> real)
      requires StrictlySorted(tapRecords)
      modifies this`tapRecords, this`tempo, this`stdDeviation, this`timeSinceLastTap, this`tempoLabel
      ensures tapRecords == AfterTap(old(tapRecords), sec, remixSec)
      ensures |tapRecords| >= 2 ==>
        tempo == MeanBpm(tapRecords) && stdDeviation == sqrt(PopVariance(Deltas(tapRecords))) * 1000.0
      ensures |tapRecords| < 2 ==> tempo == old(tempo) && stdDeviation == old(stdDeviation)
      ensures timeSinceLastTap == nowMillis
      ensures tempoLabel == TempoLabel(tapRecords, tempo, firstText)
    {
      AddTap(sec, remixSec);
      timeSinceLastTap := nowMillis;
      UpdateStatistics(sqrt);
      UpdateLabels();
    }

    /**
     * `tap()`: the wall clock (`System.currentTimeMillis`), the play state, the
     * remix's position and music offset, and `kotlin.math.sqrt` are passed in.
     */
    method Tap(nowMillis: int, playing: bool, remixSeconds: real, musicStartSec: Float, sqrt: real -> real)
      requires Valid()
      requires sqrt(0.0) == 0.0
      modifies this`tapRecords, this`tempo, this`stdDeviation, this`timeSinceLastTap, this`tempoLabel
      ensures Valid()
      ensures tapRecords == AfterTap(ResetBase(old(tapRecords), old(timeSinceLastTap), nowMillis),
                                     old(internalTimekeeper), RemixSec(playing, remixSeconds, musicStartSec))
      ensures |tapRecords| >= 2 ==>
        tempo == MeanBpm(tapRecords) && stdDeviation == sqrt(PopVariance(Deltas(tapRecords))) * 1000.0
      ensures |tapRecords| < 2 && AutoResetDue(old(tapRecords), old(timeSinceLastTap), nowMillis) ==>
        tempo == 0.0 && stdDeviation == 0.0
      ensures |tapRecords| < 2 && !AutoResetDue(old(tapRecords), old(timeSinceLastTap), nowMillis) ==>
        tempo == old(tempo) && stdDeviation == old(stdDeviation)
      ensures EvenlySpaced(tapRecords) ==> stdDeviation == 0.0
      ensures timeSinceLastTap == nowMillis
      ensures tempoLabel == TempoLabel(tapRecords, tempo, firstText)
    {
      if tapRecords != [] && nowMillis - timeSinceLastTap >= 1000 * AutoResetSeconds {
        Reset();
      }
      assert tapRecords == ResetBase(old(tapRecords), old(timeSinceLastTap), nowMillis);
      Record(nowMillis, internalTimekeeper, RemixSec(playing, remixSeconds, musicStartSec), sqrt);
      if EvenlySpaced(tapRecords) {
        SteadySpread(tapRecords, sqrt);
      }
    }
  }
}
