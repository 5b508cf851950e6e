/**
 * The presentation-mode overlay: elapsed and total time as `m:ss` labels, the
 * tempo label, and the progress bar's fill.
 */
module PresentationMode {
  import opened Values
  import Decimal

  /** Kotlin's `Int /` by a positive divisor: the quotient is truncated toward zero. */
  function KotlinDiv(a: int, d: int): (q: int)
    requires d > 0
    ensures a >= 0 ==> 0 <= a - d * q < d
    ensures a < 0 ==> -d < a - d * q <= 0
  {
    if a >= 0 then a / d else -((-a) / d)
  }

  /** Kotlin's `Int %` by a positive divisor: the remainder takes the dividend's sign. */
  function KotlinRem(a: int, d: int): (r: int)
    requires d > 0
    ensures a == d * KotlinDiv(a, d) + r
    ensures a >= 0 ==> 0 <= r < d
    ensures a < 0 ==> -d < r <= 0
  {
    a - d * KotlinDiv(a, d)
  }

  /** The text after the colon: `(if (sec < 10) "0" else "") + max(0, sec)`. */
  function SecondsField(seconds: int): string {
    var sec := KotlinRem(seconds, 60);
    (if sec < 10 then "0" else "") + Decimal.IntToString(if sec < 0 then 0 else sec)
  }

  /** `secondsToText` */
  function SecondsToText(seconds: int): string {
    Decimal.IntToString(KotlinDiv(seconds, 60)) + ":" + SecondsField(seconds)
  }

  lemma ParseTwoDigits(a: char, b: char)
    requires Decimal.IsDigit(a) && Decimal.IsDigit(b)
    ensures Decimal.ParseDigits([a, b]) == Decimal.DigitValue(a) * 10 + Decimal.DigitValue(b)
  {
    assert [a, b][..1] == [a];
    assert [a][..0] == [];
    assert Decimal.ParseDigits([a]) == Decimal.DigitValue(a);
  }

  /**
   * The field after the colon always has two digits. For a non-negative count
   * it reads back as the seconds within the minute, so minutes and field give
   * back the count; a negative count shows "00" there, since the negative
   * remainder gets the padding "0" and `max(0, sec)` prints another.
   */
  lemma SecondsFieldMeaning(seconds: int)
    ensures var f := SecondsField(seconds);
      && |f| == 2 && (forall i :: 0 <= i < 2 ==> Decimal.IsDigit(f[i]))
      && (seconds >= 0 ==>
            Decimal.ParseDigits(f) < 60 && KotlinDiv(seconds, 60) * 60 + Decimal.ParseDigits(f) == seconds)
      && (seconds < 0 ==> f == "00")
  {
    var sec := KotlinRem(seconds, 60);
    var f := SecondsField(seconds);
    if sec < 0 {
      assert Decimal.IntToString(0) == "0";
    } else if sec < 10 {
      var t := Decimal.NatToString(sec);
      Decimal.ParseNatToString(sec);
      assert f == "0" + t && |t| == 1;
      assert Decimal.ParseDigits(t) == Decimal.DigitValue(t[0]) by {
        assert t[..0] == [];
      }
      ParseTwoDigits('0', t[0]);
      assert f == ['0', t[0]];
    } else {
      var t := Decimal.NatToString(sec);
      Decimal.ParseNatToString(sec);
      assert f == t;
      assert |t| >= 2;
      assert |t| == 2 by {
        if |t| > 2 {
          ThreeDigitsAtLeastHundred(t);
        }
      }
    }
  }

  /** Three or more digits without a leading zero spell at least 100. */
  lemma {:induction false} ThreeDigitsAtLeastHundred(t: string)
    requires |t| >= 3 && forall i :: 0 <= i < |t| ==> Decimal.IsDigit(t[i])
    requires t[0] != '0'
    ensures Decimal.ParseDigits(t) >= 100
  {
    var p := t[..|t| - 1];
    assert p[0] == t[0];
    if |t| == 3 {
      var q := p[..1];
      assert q == [t[0]] && q[..0] == [];
      assert Decimal.ParseDigits(q) == Decimal.DigitValue(t[0]) >= 1;
    } else {
      ThreeDigitsAtLeastHundred(p);
    }
  }

  /** `secondsToText` is the minutes as Kotlin prints them, a colon, and the two-digit field. */
  lemma SecondsToTextShape(seconds: int)
    ensures SecondsToText(seconds) == Decimal.IntToString(KotlinDiv(seconds, 60)) + ":" + SecondsField(seconds)
    ensures |SecondsToText(seconds)| == |Decimal.IntToString(KotlinDiv(seconds, 60))| + 3
  {
    SecondsFieldMeaning(seconds);
  }

  /** Kotlin's `Float.toInt()` on a finite value: truncation toward zero. */
  function TruncToInt(x: real): (r: int)
    ensures x >= 0.0 ==> r as real <= x < r as real + 1.0
    ensures x < 0.0 ==> r as real - 1.0 < x <= r as real
  {
    if x >= 0.0 then x.Floor else -((-x).Floor)
  }

  /** `coerceIn(0f, 1f)` on a number. */
  function Clamp01(x: real): (r: real)
    ensures 0.0 <= r <= 1.0
    ensures 0.0 <= x <= 1.0 ==> r == x
    ensures x < 0.0 ==> r == 0.0
    ensures x > 1.0 ==> r == 1.0
  {
    if x < 0.0 then 0.0 else if x > 1.0 then 1.0 else x
  }

  /**
   * `(seconds / durationSeconds).coerceIn(0f, 1f)` with float division: a zero
   * duration gives an infinity (clamped to 1 or 0) or, for `0 / 0`, NaN, which
   * `coerceIn` passes through.
   */
  function Progress(seconds: real, duration: real): (p: Float)
    ensures p.Num? ==> 0.0 <= p.value <= 1.0
    ensures p.NaN? <==> seconds == 0.0 && duration == 0.0
    ensures duration != 0.0 ==> p == Num(Clamp01(seconds / duration))
  {
    if duration == 0.0 then
      (if seconds > 0.0 then Num(1.0) else if seconds < 0.0 then Num(0.0) else NaN)
    else Num(Clamp01(seconds / duration))
  }

  /** The tempo shown: the initial `Float.NEGATIVE_INFINITY`, or a tempo from the remix. */
  datatype Tempo = NegativeInfinity | Bpm(value: real)

  /** A swing setting; its ratio and division are compared structurally, as Kotlin's data class is. */
  datatype Swing = Straight | Swung(ratio: int, division: real)

  /** What `setBpmLabelText` last wrote into the tempo label. */
  datatype BpmText = BpmText(swing: Swing, tempo: Tempo)

  class PresentationModeStage {
    var timeSeconds: int
    var durationSeconds: int
    var bpm: Tempo
    var swing: Swing
    var progress: Float
    var timeLabel: string
    var durationLabel: string
    /** None while the label still holds its initial "X BPM". */
    var bpmLabel: Option<BpmText>

    /** The labels agree with the values they display. */
    ghost predicate Valid()
      reads this
    {
      && timeLabel == SecondsToText(timeSeconds)
      && durationLabel == SecondsToText(durationSeconds)
      && (bpmLabel.Some? ==> bpmLabel.value == BpmText(swing, bpm))
      && (bpmLabel.None? ==> bpm == NegativeInfinity && swing == Straight)
    }

    constructor ()
      ensures Valid()
      ensures timeSeconds == 0 && durationSeconds == 0 && bpm == NegativeInfinity && swing == Straight
      ensures timeLabel == "0:00" && durationLabel == "0:00" && bpmLabel == None
      ensures progress == Num(0.0)
    {
      timeSeconds := 0;
      durationSeconds := 0;
      bpm := NegativeInfinity;
      swing := Straight;
      progress := Num(0.0);
      timeLabel := "0:00";
      durationLabel := "0:00";
      bpmLabel := None;
      assert SecondsToText(0) == "0:00" by {
        assert Decimal.IntToString(0) == "0";
      }
    }

    method SetBpmLabelText()
      modifies this`bpmLabel
      ensures bpmLabel == Some(BpmText(swing, bpm))
    {
      bpmLabel := Some(BpmText(swing, bpm));
    }

    /** The `timeSeconds` observer: the label is rewritten only when the value changes. */
    method SetTimeSeconds(value: int)
      modifies this`timeSeconds, this`timeLabel
      ensures timeSeconds == value
      ensures old(Valid()) ==> Valid()
      ensures value != old(timeSeconds) ==> timeLabel == SecondsToText(value)
      ensures value == old(timeSeconds) ==> timeLabel == old(timeLabel)
    {
      var previous := timeSeconds;
      timeSeconds := value;
      if value != previous {
        timeLabel := SecondsToText(value);
      }
    }

    /** The `durationSeconds` observer. */
    method SetDurationSeconds(value: int)
      modifies this`durationSeconds, this`durationLabel
      ensures durationSeconds == value
      ensures old(Valid()) ==> Valid()
      ensures value != old(durationSeconds) ==> durationLabel == SecondsToText(value)
      ensures value == old(durationSeconds) ==> durationLabel == old(durationLabel)
    {
      var previous := durationSeconds;
      durationSeconds := value;
      if value != previous {
        durationLabel := SecondsToText(value);
      }
    }

    /** The `bpm` observer: the tempo label is refreshed only when the tempo changes. */
    method SetBpm(value: Tempo)
      modifies this`bpm, this`bpmLabel
      ensures bpm == value
      ensures old(Valid()) ==> Valid()
      ensures value != old(bpm) ==> bpmLabel == Some(BpmText(swing, value))
      ensures value == old(bpm) ==> bpmLabel == old(bpmLabel)
    {
      var previous := bpm;
      bpm := value;
      if value != previous {
        SetBpmLabelText();
      }
    }

    /** The `swing` observer. */
    method SetSwing(value: Swing)
      modifies this`swing, this`bpmLabel
      ensures swing == value
      ensures old(Valid()) ==> Valid()
      ensures value != old(swing) ==> bpmLabel == Some(BpmText(value, bpm))
      ensures value == old(swing) ==> bpmLabel == old(bpmLabel)
    {
      var previous := swing;
      swing := value;
      if value != previous {
        SetBpmLabelText();
      }
    }

    /** The time half of `render`: both second counters go through their observers. */
    method RenderTimes(time: int, duration: int)
      requires Valid()
      modifies this`timeSeconds, this`timeLabel, this`durationSeconds, this`durationLabel
      ensures Valid()
      ensures timeSeconds == time && durationSeconds == duration
    {
      SetTimeSeconds(time);
      SetDurationSeconds(duration);
    }

    /** The tempo half of `render`: a tempo from the remix always differs from the initial one. */
    method RenderTempo(tempo: real, swingAtBeat: Swing)
      requires Valid()
      modifies this`bpm, this`swing, this`bpmLabel
      ensures Valid()
      ensures bpm == Bpm(tempo) && swing == swingAtBeat
      ensures bpmLabel == Some(BpmText(swingAtBeat, Bpm(tempo)))
    {
      SetBpm(Bpm(tempo));
      assert bpmLabel == Some(BpmText(swing, bpm));
      SetSwing(swingAtBeat);
    }

    /**
     * The model part of `render`. `beatsToSeconds(beat)`, `beatsToSeconds(lastPoint)`,
     * `tempoAt(beat)`, `swingAt(beat)` and `remix.seconds` come in as values.
     */
    method Render(beatSeconds: real, lastPointSeconds: real, tempoAtBeat: real, swingAtBeat: Swing, remixSeconds: real)
      requires Valid()
      modifies this`timeSeconds, this`timeLabel, this`durationSeconds, this`durationLabel
      modifies this`bpm, this`swing, this`bpmLabel, this`progress
      ensures Valid()
      ensures timeSeconds == TruncToInt(beatSeconds) && durationSeconds == TruncToInt(lastPointSeconds)
      ensures bpm == Bpm(tempoAtBeat) && swing == swingAtBeat
      ensures bpmLabel == Some(BpmText(swingAtBeat, Bpm(tempoAtBeat)))
      ensures progress == Progress(remixSeconds, lastPointSeconds)
    {
      var time, duration := TruncToInt(beatSeconds), TruncToInt(lastPointSeconds);
      var fill := Progress(remixSeconds, lastPointSeconds);
      RenderTimes(time, duration);
      RenderTempo(tempoAtBeat, swingAtBeat);
      progress := fill;
    }
  }

  /** 75 seconds read "1:15". */
  lemma SecondsToTextOverAMinute()
    ensures SecondsToText(75) == "1:15"
  {
    assert Decimal.IntToString(1) == "1";
    assert Decimal.NatToString(15) == "15";
  }

  /** 5 seconds read "0:05": the field is padded to two digits. */
  lemma SecondsToTextPadded()
    ensures SecondsToText(5) == "0:05"
  {
    assert Decimal.IntToString(0) == "0";
    assert Decimal.IntToString(5) == "5";
  }

  /** -5 seconds read "0:00": the minutes truncate to 0 and the field clamps to 0. */
  lemma SecondsToTextSmallNegative()
    ensures SecondsToText(-5) == "0:00"
  {
    assert Decimal.IntToString(0) == "0";
  }

  /** -65 seconds read "-1:00". */
  lemma SecondsToTextNegative()
    ensures SecondsToText(-65) == "-1:00"
  {
    assert Decimal.IntToString(0) == "0";
    assert Decimal.IntToString(-1) == "-1";
  }
}
