/**
 * The five mood levels of the journal, the classification of a slider score
 * into a level, and each level's glyph and label.
 */
module Mood {
  import opened Wrappers

  datatype MoodLevel = VeryUnpleasant | Unpleasant | Neutral | Pleasant | VeryPleasant

  /** The levels in declaration order (the enum's `allCases`). */
  const AllLevels: seq<MoodLevel> := [VeryUnpleasant, Unpleasant, Neutral, Pleasant, VeryPleasant]

  /** The enum's raw value: the label shown to the user and used by `Codable`; a non-empty single line. */
  function RawValue(level: MoodLevel): (name: string)
    ensures name != "" && '\n' !in name
  {
    match level
    case VeryUnpleasant => "Very Unpleasant"
    case Unpleasant => "Unpleasant"
    case Neutral => "Neutral"
    case Pleasant => "Pleasant"
    case VeryPleasant => "Very Pleasant"
  }

  /** The raw-value initialiser `MoodLevel(rawValue:)`: the inverse of RawValue. */
  function FromRawValue(raw: string): (level: Option<MoodLevel>)
    ensures forall l :: level == Some(l) <==> raw == RawValue(l)
  {
    if raw == "Very Unpleasant" then Some(VeryUnpleasant)
    else if raw == "Unpleasant" then Some(Unpleasant)
    else if raw == "Neutral" then Some(Neutral)
    else if raw == "Pleasant" then Some(Pleasant)
    else if raw == "Very Pleasant" then Some(VeryPleasant)
    else None
  }

  /** One face glyph per level: a single character of the Unicode Emoticons block. */
  function Emoji(level: MoodLevel): (glyph: string)
    ensures |glyph| == 1
    ensures '\U{1F600}' <= glyph[0] <= '\U{1F64F}'
  {
    match level
    case VeryUnpleasant => "\U{1F62B}"  // tired face
    case Unpleasant => "\U{1F641}"      // slightly frowning face
    case Neutral => "\U{1F610}"         // neutral face
    case Pleasant => "\U{1F642}"        // slightly smiling face
    case VeryPleasant => "\U{1F60A}"    // smiling face with smiling eyes
  }

  /** The text of the "Mood Level:" line: glyph, one space, label. */
  function DisplayText(level: MoodLevel): string
  {
    Emoji(level) + " " + RawValue(level)
  }

  // ---------------------------------------------------------------------
  // Classification of a score

  /** Lower end of the closed score band that names a level. */
  function BandLow(level: MoodLevel): real
  {
    match level
    case VeryUnpleasant => 1.0
    case Unpleasant => 2.6
    case Neutral => 4.6
    case Pleasant => 6.6
    case VeryPleasant => 8.6
  }

  /** Upper end of the closed score band that names a level. */
  function BandHigh(level: MoodLevel): real
  {
    match level
    case VeryUnpleasant => 2.5
    case Unpleasant => 4.5
    case Neutral => 6.5
    case Pleasant => 8.5
    case VeryPleasant => 10.0
  }

  predicate InBand(score: real, level: MoodLevel)
  {
    BandLow(level) <= score <= BandHigh(level)
  }

  predicate InNoBand(score: real)
  {
    forall l :: !InBand(score, l)
  }

  /**
   * `MoodLevel.fromScore`: the first band of the switch that holds the score,
   * and Neutral for a score that lies in none of them. Total: every real
   * score gets a level.
   */
  function FromScore(score: real): (level: MoodLevel)
    ensures InBand(score, level) || (level == Neutral && InNoBand(score))
    ensures forall l :: InBand(score, l) ==> level == l
  {
    if 1.0 <= score <= 2.5 then VeryUnpleasant
    else if 2.6 <= score <= 4.5 then Unpleasant
    else if 4.6 <= score <= 6.5 then Neutral
    else if 6.6 <= score <= 8.5 then Pleasant
    else if 8.6 <= score <= 10.0 then VeryPleasant
    else Neutral
  }

  /** The five bands are pairwise disjoint, so the order of the switch's cases never matters. */
  lemma BandsDisjoint(score: real, a: MoodLevel, b: MoodLevel)
    requires InBand(score, a) && InBand(score, b)
    ensures a == b
  {
  }

  /** Every band is non-empty, and the bands follow the declaration order of the levels, each strictly above the previous one. */
  lemma BandsAscending(i: nat)
    requires i < |AllLevels|
    ensures BandLow(AllLevels[i]) <= BandHigh(AllLevels[i])
    ensures i + 1 < |AllLevels| ==> BandHigh(AllLevels[i]) < BandLow(AllLevels[i + 1])
  {
  }

  /** The level of a score, in both directions: its band's level, or Neutral when no band holds it. */
  lemma FromScoreExactly(score: real, level: MoodLevel)
    ensures FromScore(score) == level <==> InBand(score, level) || (level == Neutral && InNoBand(score))
  {
  }

  /** Scores below 1, above 10 and in the gaps between bands fall back to Neutral. */
  lemma OutsideBandsIsNeutral(score: real)
    requires score < 1.0 || 10.0 < score
          || (2.5 < score < 2.6) || (4.5 < score < 4.6) || (6.5 < score < 6.6) || (8.5 < score < 8.6)
    ensures FromScore(score) == Neutral
  {
    assert InNoBand(score);
  }

  /** The slider runs over 1...10 in steps of 2 and starts at 5. */
  predicate OnSlider(score: real)
  {
    score == 1.0 || score == 3.0 || score == 5.0 || score == 7.0 || score == 9.0
  }

  /** The level of each value the slider can take: one per level, in order. */
  lemma SliderLevels()
    ensures FromScore(1.0) == VeryUnpleasant
    ensures FromScore(3.0) == Unpleasant
    ensures FromScore(5.0) == Neutral
    ensures FromScore(7.0) == Pleasant
    ensures FromScore(9.0) == VeryPleasant
    ensures FromScore(2.55) == Neutral
  {
  }

  /** Every level is reached by exactly one slider position. */
  lemma SliderReachesEveryLevel(level: MoodLevel)
    ensures exists score :: OnSlider(score) && FromScore(score) == level
    ensures forall s1, s2 :: OnSlider(s1) && OnSlider(s2) && FromScore(s1) == level && FromScore(s2) == level ==> s1 == s2
  {
    var score := 1.0 + 2.0 * (match level
      case VeryUnpleasant => 0.0 case Unpleasant => 1.0 case Neutral => 2.0
      case Pleasant => 3.0 case VeryPleasant => 4.0);
    assert OnSlider(score) && FromScore(score) == level;
  }

  /** The five glyphs are pairwise distinct. */
  lemma EmojisDistinct(a: MoodLevel, b: MoodLevel)
    ensures Emoji(a) == Emoji(b) <==> a == b
  {
  }

  /** The five labels are pairwise distinct. */
  lemma RawValuesDistinct(a: MoodLevel, b: MoodLevel)
    ensures RawValue(a) == RawValue(b) <==> a == b
  {
    assert FromRawValue(RawValue(a)) == Some(a);
  }

  /** The display text names the level unambiguously: its first character is the level's glyph. */
  lemma DisplayTextNamesLevel(a: MoodLevel, b: MoodLevel)
    ensures DisplayText(a)[0] == Emoji(a)[0]
    ensures DisplayText(a)[|Emoji(a)|..] == " " + RawValue(a)
    ensures DisplayText(a) == DisplayText(b) <==> a == b
  {
    EmojisDistinct(a, b);
    if DisplayText(a) == DisplayText(b) {
      assert Emoji(a)[0] == DisplayText(a)[0] == DisplayText(b)[0] == Emoji(b)[0];
      assert Emoji(a) == [Emoji(a)[0]] && Emoji(b) == [Emoji(b)[0]];
    }
  }
}
