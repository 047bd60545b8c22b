/**
 * Performance scoring of one recorded phrase attempt
 * (widgets/learning_widget.py, `analyze_and_provide_feedback`).
 *
 * The numeric features (RMS loudness, the voiced-frame flags of the pitch
 * tracker, the onset count of the onset detector) are computed by numpy and
 * librosa in the program; here they are inputs. What is modelled is every
 * decision taken on them: the three loudness flags, the pitch and rhythm
 * flags, the category waterfall, the star table and the feedback table.
 */
module Scoring {
  import opened Wrappers

  // Capture parameters: samples per second and samples per chunk read.
  const Rate: nat := 16000
  const Chunk: nat := 1024

  // RMS thresholds for "audible", "loud enough" and "very loud".
  const QuietThreshold: real := 0.005
  const MediumThreshold: real := 0.03
  const LoudThreshold: real := 0.15

  // Percentage of voiced frames that must be exceeded for "has pitch".
  const PitchPercentRequired: nat := 30

  /** The performance category chosen by the waterfall. */
  datatype Category = Silent | Excellent | Good | Ok | Poor

  /**
   * The star table: "excellent" 3, "good" 2, "ok" 1, "poor" 0.
   * A silent attempt is rewarded with the "poor" entry.
   */
  function StarReward(c: Category): (r: nat)
    ensures r <= 3
    ensures r == 0 <==> c == Silent || c == Poor
    ensures r == 3 <==> c == Excellent
  {
    match c
    case Excellent => 3
    case Good => 2
    case Ok => 1
    case Poor => 0
    case Silent => 0
  }

  /** Outcome of the pitch tracker: voiced and total frame counts, or an exception. */
  datatype PitchOutcome = PitchFrames(voiced: nat, total: nat) | PitchFailed

  /** Outcome of the onset detector: number of onsets, or an exception. */
  datatype OnsetOutcome = OnsetsFound(count: nat) | OnsetFailed

  /** The five boolean indicators the waterfall reads. */
  datatype Indicators = Indicators(audible: bool, loud: bool, veryLoud: bool, pitch: bool, rhythm: bool)

  /**
   * What the threshold ordering 0.005 < 0.03 < 0.15 and the audibility
   * gating of the two estimators guarantee about the indicators.
   */
  predicate Consistent(ind: Indicators)
  {
    && (ind.veryLoud ==> ind.loud)
    && (ind.loud ==> ind.audible)
    && (ind.pitch ==> ind.audible)
    && (ind.rhythm ==> ind.audible)
  }

  /** Number of the three musical criteria (loud, pitch, rhythm) that hold. */
  function FlagCount(ind: Indicators): nat
  {
    (if ind.loud then 1 else 0) + (if ind.pitch then 1 else 0) + (if ind.rhythm then 1 else 0)
  }

  /** For a positive real factor, a product is positive exactly when the other factor is. */
  lemma PositiveFactor(d: real, t: real)
    requires t > 0.0
    ensures d * t > 0.0 <==> d > 0.0
  {
    if d > 0.0 { assert d * t > 0.0; }
    if d <= 0.0 { assert d * t <= 0.0; }
  }

  lemma QuotientTimesHundred(v: nat, t: nat)
    requires t > 0
    ensures (v as real / t as real) * 100.0 > 30.0 <==> v * 100 > 30 * t
  {
    var q := v as real / t as real;
    var d := q * 100.0 - 30.0;
    assert q * (t as real) == v as real;
    assert (v * 100) as real - (30 * t) as real == d * (t as real);
    PositiveFactor(d, t as real);
    assert v * 100 > 30 * t <==> (v * 100) as real - (30 * t) as real > 0.0;
    assert q * 100.0 > 30.0 <==> d > 0.0;
  }

  /**
   * "Has pitch": the estimator ran (only when audible), reported at least
   * one frame, and strictly more than 30 percent of the frames were voiced.
   * The body decides this in exact integer arithmetic.
   */
  function HasPitch(audible: bool, p: PitchOutcome): (r: bool)
    ensures r <==> audible && p.PitchFrames? && p.total > 0
                   && (p.voiced as real / p.total as real) * 100.0 > PitchPercentRequired as real
  {
    if audible && p.PitchFrames? && p.total > 0 then
      QuotientTimesHundred(p.voiced, p.total);
      p.voiced * 100 > PitchPercentRequired * p.total
    else
      false
  }

  /** Length of a recording of `chunks` chunks, in seconds. */
  function RecordedSeconds(chunks: nat): real
  {
    (chunks * Chunk) as real / Rate as real
  }

  lemma FloorOfQuotient(a: nat, b: nat)
    requires b > 0
    ensures (a as real / b as real).Floor == a / b
  {
    var q, m := a / b, a % b;
    assert a == q * b + m && 0 <= m < b;
    var x := a as real / b as real;
    assert x * (b as real) == a as real;
    assert (x - q as real) * (b as real) == m as real;
    PositiveFactor(x - q as real, b as real);
    PositiveFactor(q as real + 1.0 - x, b as real);
    assert (q as real + 1.0 - x) * (b as real) == (b - m) as real;
  }

  /**
   * The onset floor `max(1, int(duration * 0.8))` for a recording of
   * `chunks` chunks, computed as `max(1, chunks * 32 / 625)` in integers.
   */
  function MinOnsetsRequired(chunks: nat): (r: nat)
    ensures r >= 1
    ensures r == Max(1, (RecordedSeconds(chunks) * 0.8).Floor)
  {
    assert RecordedSeconds(chunks) * 0.8 == (chunks * 32) as real / 625 as real;
    FloorOfQuotient(chunks * 32, 625);
    Max(1, chunks * 32 / 625)
  }

  /**
   * "Has rhythm": the onset detector ran (only when audible) and found at
   * least as many onsets as the duration-based floor.
   */
  function HasRhythm(audible: bool, o: OnsetOutcome, chunks: nat): (r: bool)
    ensures r <==> audible && o.OnsetsFound? && o.count >= MinOnsetsRequired(chunks)
    ensures r ==> o.OnsetsFound? && o.count >= 1
  {
    audible && o.OnsetsFound? && o.count >= MinOnsetsRequired(chunks)
  }

  /** All five indicators of one analysed recording of `chunks` chunks. */
  function Analyze(rms: real, p: PitchOutcome, o: OnsetOutcome, chunks: nat): (ind: Indicators)
    ensures Consistent(ind)
    ensures ind.audible <==> rms > QuietThreshold
    ensures ind.loud <==> rms > MediumThreshold
    ensures ind.veryLoud <==> rms > LoudThreshold
    ensures ind.pitch == HasPitch(ind.audible, p) && ind.rhythm == HasRhythm(ind.audible, o, chunks)
    ensures p.PitchFailed? ==> !ind.pitch
    ensures o.OnsetFailed? ==> !ind.rhythm
  {
    var audible := rms > QuietThreshold;
    Indicators(audible, rms > MediumThreshold, rms > LoudThreshold,
               HasPitch(audible, p), HasRhythm(audible, o, chunks))
  }

  /** The category waterfall; the first matching branch wins. */
  function Classify(ind: Indicators): (c: Category)
    ensures c == Silent <==> !ind.audible
    ensures c == Excellent <==> ind.audible && ind.loud && ind.pitch && ind.rhythm
    ensures c != Poor
  {
    if !ind.audible then Silent
    else if ind.loud && ind.pitch && ind.rhythm then Excellent
    else if (ind.loud && ind.pitch) || (ind.loud && ind.rhythm)
            || (ind.pitch && ind.rhythm && !ind.veryLoud) then Good
    else if ind.audible then Ok
    else Poor
  }

  /**
   * Under the threshold ordering, "good" means exactly two of the three
   * criteria, every other audible attempt is "ok", and the reward of an
   * audible attempt is the number of criteria met, but at least one.
   */
  lemma ClassifyByCriteria(ind: Indicators)
    requires Consistent(ind)
    ensures Classify(ind) == Good <==> ind.audible && FlagCount(ind) == 2
    ensures Classify(ind) == Ok <==> ind.audible && FlagCount(ind) <= 1
    ensures StarReward(Classify(ind)) == if ind.audible then Max(1, FlagCount(ind)) else 0
  {
  }

  /** The feedback sentences, one constructor per sentence of the table. */
  datatype Message =
    | NoSoundHeard        // silent
    | StarPerformance     // excellent
    | LoudAndMelodic      // good: loud and pitch
    | LoudAndRhythmic     // good: loud and rhythm
    | SoftButMusical      // good: pitch and rhythm
    | GenericGood         // good: none of the three pairs
    | VeryLoudCheer       // ok: very loud
    | HeardYouSing        // ok: one criterion met
    | KeepTrying          // ok: no criterion met
    | TryAgain            // poor
    | NothingRecorded     // the recording holds no chunk at all

  datatype Choice = Choice(message: Message, character: string)

  /** The static feedback table keyed by category and indicators. */
  function SelectFeedback(c: Category, ind: Indicators): (ch: Choice)
    ensures ch.character == "chase" || ch.character == "marshall" || ch.character == "skye"
    ensures c == Good ==> ch.message in {LoudAndMelodic, LoudAndRhythmic, SoftButMusical, GenericGood}
  {
    match c
    case Silent => Choice(NoSoundHeard, "chase")
    case Excellent => Choice(StarPerformance, "marshall")
    case Good =>
      if ind.loud && ind.pitch then Choice(LoudAndMelodic, "skye")
      else if ind.loud && ind.rhythm then Choice(LoudAndRhythmic, "marshall")
      else if ind.pitch && ind.rhythm then Choice(SoftButMusical, "skye")
      else Choice(GenericGood, "chase")
    case Ok =>
      if ind.veryLoud then Choice(VeryLoudCheer, "marshall")
      else if ind.loud || ind.pitch || ind.rhythm then Choice(HeardYouSing, "chase")
      else Choice(KeepTrying, "chase")
    case Poor => Choice(TryAgain, "chase")
  }

  /**
   * For a classified attempt the good-fallback sentence is never chosen,
   * an excellent attempt shows "marshall", and an "ok" attempt shows
   * "marshall" exactly when it was very loud.
   */
  lemma FeedbackForClassified(ind: Indicators)
    ensures SelectFeedback(Classify(ind), ind).message != GenericGood
    ensures SelectFeedback(Classify(ind), ind).message != TryAgain
    ensures Classify(ind) == Excellent ==> SelectFeedback(Classify(ind), ind).character == "marshall"
    ensures Classify(ind) == Ok ==>
              (SelectFeedback(Classify(ind), ind).character == "marshall" <==> ind.veryLoud)
  {
  }

  /**
   * The character actually shown: the chosen one when its animation was
   * loaded, otherwise the first loaded one, otherwise none.
   */
  function ResolveCharacter(selected: string, loaded: seq<string>): (r: Option<string>)
    ensures r.None? <==> loaded == []
    ensures r.Some? ==> r.value in loaded
    ensures selected in loaded ==> r == Some(selected)
    ensures selected !in loaded && loaded != [] ==> r == Some(loaded[0])
  {
    if selected in loaded then Some(selected)
    else if loaded != [] then Some(loaded[0])
    else None
  }

  /** What the feedback area shows after a successful analysis. */
  datatype Verdict = Verdict(category: Category, stars: nat, message: Message,
                             character: Option<string>, indicators: Indicators)

  /** Category, reward, sentence and character of one analysed attempt. */
  function Evaluate(ind: Indicators, loaded: seq<string>): (v: Verdict)
    ensures v.category == Classify(ind) && v.stars == StarReward(v.category)
    ensures v.stars <= 3 && (v.stars == 0 <==> !ind.audible)
    ensures v.character.Some? ==> v.character.value in loaded
    ensures v.indicators == ind
    ensures v.message == SelectFeedback(v.category, ind).message
    ensures v.character == ResolveCharacter(SelectFeedback(v.category, ind).character, loaded)
  {
    var c := Classify(ind);
    var ch := SelectFeedback(c, ind);
    Verdict(c, StarReward(c), ch.message, ResolveCharacter(ch.character, loaded), ind)
  }
}
