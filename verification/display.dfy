/**
 * The two pure mappings the view applies to a reading: the colour hue of
 * the visualisation and the textual level description.
 */
module Display {

  /** Hue before any reading has been shown (purple). */
  const InitialHue: int := 240

  /** Hue of the quietest reading; louder readings move towards red (0). */
  const MaxHue: int := 270

  /** The hue for a reading: 270 - 2 * decibels, clamped into [0, 270]. */
  function HueFor(decibels: int): (h: int)
    ensures 0 <= h <= MaxHue
    ensures decibels >= MaxHue / 2 ==> h == 0
    ensures decibels <= 0 ==> h == MaxHue
  {
    var raw := MaxHue - decibels * 2;
    var capped := if raw < MaxHue then raw else MaxHue;
    if 0 < capped then capped else 0
  }

  /** Louder never means a larger hue. */
  lemma HueAntitone(quieter: int, louder: int)
    requires quieter <= louder
    ensures HueFor(louder) <= HueFor(quieter)
  {
  }

  /** On [0, 135] the hue determines the reading: the mapping is invertible there. */
  lemma HueRecoversReading(decibels: int)
    requires 0 <= decibels <= MaxHue / 2
    ensures (MaxHue - HueFor(decibels)) / 2 == decibels
    ensures HueFor(decibels) % 2 == 0
  {
  }

  /**
   * The colour effect: it recomputes the hue only while listening to a
   * positive reading; otherwise the previous hue stays.
   */
  function HueEffect(listening: bool, decibels: int, previous: int): (h: int)
    ensures listening && decibels > 0 ==> h == HueFor(decibels)
    ensures !(listening && decibels > 0) ==> h == previous
  {
    if listening && decibels > 0 then HueFor(decibels) else previous
  }

  /** Running the effect again on its own output changes nothing. */
  lemma HueEffectIdempotent(listening: bool, decibels: int, previous: int)
    ensures HueEffect(listening, decibels, HueEffect(listening, decibels, previous))
         == HueEffect(listening, decibels, previous)
  {
  }

  /** Upper bounds of the first seven bands, in ascending order. */
  const Thresholds: seq<int> := [20, 30, 40, 50, 60, 70, 80]

  /** One label per band, from very quiet to dangerous. */
  const Labels: seq<string> :=
    ["Çok Sessiz", "Sessiz", "Sakin", "Normal", "Orta", "Gürültülü", "Çok Gürültülü", "Tehlikeli"]

  /** The band a reading falls in, found by scanning the thresholds upwards from `k`. */
  function BandFrom(level: int, k: nat): (b: nat)
    requires k <= |Thresholds|
    requires k == 0 || Thresholds[k - 1] <= level
    ensures k <= b <= |Thresholds|
    ensures b == 0 || Thresholds[b - 1] <= level
    ensures b == |Thresholds| || level < Thresholds[b]
    decreases |Thresholds| - k
  {
    if k == |Thresholds| || level < Thresholds[k] then k else BandFrom(level, k + 1)
  }

  /** The band of a reading: 0 below 20, 7 from 80 on. */
  function Band(level: int): (b: nat)
    ensures b < |Labels|
    ensures b == 0 || Thresholds[b - 1] <= level
    ensures b == |Thresholds| || level < Thresholds[b]
  {
    BandFrom(level, 0)
  }

  /** A louder reading never falls in a lower band. */
  lemma BandMonotone(quieter: int, louder: int)
    requires quieter <= louder
    ensures Band(quieter) <= Band(louder)
  {
  }

  /** The labels are pairwise distinct. */
  lemma LabelsDistinct(i: nat, j: nat)
    requires i < |Labels| && j < |Labels| && i != j
    ensures Labels[i] != Labels[j]
  {
  }

  /** The level description shown under the reading. */
  function Describe(level: int): (text: string)
    ensures text == Labels[Band(level)]
    ensures level < Thresholds[0] ==> text == "Çok Sessiz"
    ensures level >= Thresholds[|Thresholds| - 1] ==> text == "Tehlikeli"
  {
    if level < 20 then "Çok Sessiz"
    else if level < 30 then "Sessiz"
    else if level < 40 then "Sakin"
    else if level < 50 then "Normal"
    else if level < 60 then "Orta"
    else if level < 70 then "Gürültülü"
    else if level < 80 then "Çok Gürültülü"
    else "Tehlikeli"
  }

  /** Two readings get the same description exactly when they fall in the same band. */
  lemma DescribeIdentifiesBand(a: int, b: int)
    ensures Describe(a) == Describe(b) <==> Band(a) == Band(b)
  {
    if Band(a) != Band(b) {
      LabelsDistinct(Band(a), Band(b));
    }
  }
}
