/** The heart-rate page (src/pages/RppgMonitor.tsx): how the published
    estimator state is shown — the quality colour and label, the heart-rate
    text, the pulse animation's period and the Start/Stop button. Labels are
    translation keys; the translation itself is not modelled. */
module RppgMonitor {
  import opened Wrappers
  import opened JsStrings
  import opened RppgSession

  /** The three quality bands, worst first. */
  datatype Band = Poor | Fair | Good

  function Rank(b: Band): nat {
    match b
    case Poor => 0
    case Fair => 1
    case Good => 2
  }

  /** `getQualityColor` */
  function QualityColor(quality: real): (c: string)
    ensures c == "text-success" || c == "text-warning" || c == "text-destructive"
    ensures c == "text-success" <==> quality >= 70.0
    ensures c == "text-destructive" <==> quality < 40.0
  {
    if quality >= 70.0 then "text-success"
    else if quality >= 40.0 then "text-warning"
    else "text-destructive"
  }

  /** `getQualityLabel`, as the translation key it looks up. */
  function QualityLabelKey(quality: real): (k: string)
    ensures k == "rppg.good" || k == "rppg.fair" || k == "rppg.poor"
    ensures k == "rppg.good" <==> quality >= 70.0
    ensures k == "rppg.poor" <==> quality < 40.0
  {
    if quality >= 70.0 then "rppg.good"
    else if quality >= 40.0 then "rppg.fair"
    else "rppg.poor"
  }

  /** The band a colour class names. */
  function ColorBand(color: string): Band {
    if color == "text-success" then Good
    else if color == "text-warning" then Fair
    else Poor
  }

  /** The band a label key names. */
  function LabelBand(key: string): Band {
    if key == "rppg.good" then Good
    else if key == "rppg.fair" then Fair
    else Poor
  }

  /** Colour and label always name the same band, and that band is decided
      by the thresholds 70 and 40. */
  lemma ColorAndLabelAgree(quality: real)
    ensures ColorBand(QualityColor(quality)) == LabelBand(QualityLabelKey(quality))
    ensures ColorBand(QualityColor(quality)) == Good <==> quality >= 70.0
    ensures ColorBand(QualityColor(quality)) == Poor <==> quality < 40.0
  {
  }

  /** Raising the quality never moves it to a worse band. */
  lemma BandsMonotone(q1: real, q2: real)
    requires q1 <= q2
    ensures Rank(ColorBand(QualityColor(q1))) <= Rank(ColorBand(QualityColor(q2)))
    ensures Rank(LabelBand(QualityLabelKey(q1))) <= Rank(LabelBand(QualityLabelKey(q2)))
  {
  }

  /** The character of a digit value. */
  function DigitChar(d: nat): (c: char)
    requires d < 10
    ensures IsDigit(c)
  {
    "0123456789"[d]
  }

  /** Decimal text of a natural number, as `{n}` renders it. */
  function NatToString(n: nat): (r: string)
    ensures |r| >= 1 && AllDigits(r)
    ensures n > 0 ==> r[0] != '0'
    decreases n
  {
    if n < 10 then [DigitChar(n)] else NatToString(n / 10) + [DigitChar(n % 10)]
  }

  /** The value a digit string denotes. */
  function DigitsValue(s: string): nat
    requires AllDigits(s)
    decreases |s|
  {
    if s == [] then 0 else DigitsValue(s[..|s| - 1]) * 10 + (s[|s| - 1] as int - '0' as int)
  }

  /** The decimal text reads back as the number it was made from. */
  lemma {:induction false} NatToStringValue(n: nat)
    ensures DigitsValue(NatToString(n)) == n
    decreases n
  {
    var r := NatToString(n);
    if n >= 10 {
      NatToStringValue(n / 10);
      assert r[..|r| - 1] == NatToString(n / 10);
    }
  }

  /** Decimal text of an integer, with a leading minus for negatives. */
  function IntToString(v: int): string {
    if v < 0 then "-" + NatToString(-v) else NatToString(v)
  }

  /** The big number of the heart-rate card: "--" while there is no
      estimate, the number otherwise. */
  function HeartRateText(heartRate: Option<int>): (t: string)
    ensures |t| >= 1
    ensures heartRate.Some? && heartRate.value >= 0 ==> AllDigits(t)
  {
    match heartRate
    case None => "--"
    case Some(v) => IntToString(v)
  }

  /** "--" is shown exactly when no estimate was published, so a published
      0 shows as "0" rather than as "--". */
  lemma DashesIffNoEstimate(heartRate: Option<int>)
    ensures HeartRateText(heartRate) == "--" <==> heartRate.None?
    ensures HeartRateText(Some(0)) == "0"
  {
    if heartRate.Some? {
      var v := heartRate.value;
      var r := HeartRateText(heartRate);
      if v < 0 {
        assert r[1] == NatToString(-v)[0];
        assert IsDigit(r[1]);
      } else {
        assert IsDigit(r[0]);
      }
    }
  }

  /** `heartRate ? 60 / heartRate : 1`: one pulse per beat when there is a
      non-zero estimate; a missing estimate and an estimate of 0 both pulse
      once a second. */
  function AnimationPeriod(heartRate: Option<int>): (p: real)
    ensures heartRate.None? ==> p == 1.0
    ensures heartRate.Some? && heartRate.value > 0 ==> p > 0.0
  {
    if heartRate.Some? && heartRate.value != 0 then 60.0 / heartRate.value as real else 1.0
  }

  /** With an estimate in beats per minute, the animation pulses that many
      times a minute; for 40 to 200 BPM the period lies between 0.3 s and
      1.5 s. Without a usable estimate the period is 1 s. */
  lemma AnimationMatchesHeartRate(bpm: int)
    ensures AnimationPeriod(None) == 1.0 && AnimationPeriod(Some(0)) == 1.0
    ensures bpm != 0 ==> AnimationPeriod(Some(bpm)) * bpm as real == 60.0
    ensures 40 <= bpm <= 200 ==> 0.3 <= AnimationPeriod(Some(bpm)) <= 1.5
  {
    if 40 <= bpm <= 200 {
      var p := AnimationPeriod(Some(bpm));
      assert p * bpm as real == 60.0;
      assert 0.3 * bpm as real <= 60.0 <= 1.5 * bpm as real;
    }
  }

  /** The measurement control. */
  datatype Control = StartButton | StopButton

  /** What the page shows for an estimator state. */
  datatype MonitorView = MonitorView(
    control: Control,
    pulsePeriod: Option<real>,
    heartRateText: string,
    qualityColor: string,
    qualityLabelKey: string)

  function ViewOf(st: RppgState): MonitorView {
    MonitorView(
      if !st.isProcessing then StartButton else StopButton,
      if st.isProcessing then Some(AnimationPeriod(st.heartRate)) else None,
      HeartRateText(st.heartRate),
      QualityColor(st.signalQuality),
      QualityLabelKey(st.signalQuality))
  }

  /** Stop is offered exactly while processing and Start exactly while not;
      the heart pulses only while processing. Stop leaves the idle state,
      whose heart rate is null, so the page shows "--" with a Start button.
      A failed start keeps the last estimate on screen beside the error. */
  lemma ControlsFollowProcessing(st: RppgState, message: string)
    ensures ViewOf(st).control == StopButton <==> st.isProcessing
    ensures ViewOf(st).control == StartButton <==> !st.isProcessing
    ensures ViewOf(st).pulsePeriod.Some? <==> st.isProcessing
    ensures ViewOf(IdleState).heartRateText == "--" && ViewOf(IdleState).control == StartButton
    ensures ViewOf(IdleState).pulsePeriod == None
    ensures ViewOf(st.(isProcessing := false, error := Some(message))).heartRateText == ViewOf(st).heartRateText
  {
  }
}
