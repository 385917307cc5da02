/**
 * The fixed catalogue of feeling tags, grouped by mood level: the tags
 * recommended for the current slider score and the sorted list of all tags.
 */
module Feelings {
  import opened Mood
  import opened StringOrder

  const VeryUnpleasantFeelings: seq<string> :=
    ["Hopeless", "Exhausted", "Angry", "Panicked", "Irritable", "Ashamed", "Worried", "Grieving"]
  const UnpleasantFeelings: seq<string> :=
    ["Tired", "Anxious", "Frustrated", "Sad", "Stressed", "Disappointed", "Lonely"]
  const NeutralFeelings: seq<string> :=
    ["Bored", "Meh", "Indifferent", "Calm", "Blank", "Okay", "Relaxed"]
  const PleasantFeelings: seq<string> :=
    ["Content", "Motivated", "Inspired", "Optimistic", "Grateful", "Excited", "Focused"]
  const VeryPleasantFeelings: seq<string> :=
    ["Euphoric", "Joyful", "Energetic", "Elated", "Proud", "Confident", "Connected"]

  /** `feelingsByMood`: the tag list of each level, in display order. */
  const FeelingsByMood: map<MoodLevel, seq<string>> := map[
    VeryUnpleasant := VeryUnpleasantFeelings,
    Unpleasant := UnpleasantFeelings,
    Neutral := NeutralFeelings,
    Pleasant := PleasantFeelings,
    VeryPleasant := VeryPleasantFeelings
  ]

  /** A tag that is in some level's list. */
  predicate InCatalogue(tag: string)
  {
    exists l :: l in FeelingsByMood && tag in FeelingsByMood[l]
  }

  /**
   * `recommendedFeelings`: the list of the score's level, or the empty list
   * when the level has no entry. Every level has one, so the list always has
   * seven or eight tags.
   */
  function RecommendedFeelings(moodValue: real): (tags: seq<string>)
    ensures FromScore(moodValue) in FeelingsByMood && tags == FeelingsByMood[FromScore(moodValue)]
    ensures 7 <= |tags| <= 8
  {
    var level := FromScore(moodValue);
    if level in FeelingsByMood then FeelingsByMood[level] else []
  }

  /** `allFeelings`: the union of all the lists, without duplicates, in ascending order. */
  function AllFeelings(): (tags: seq<string>)
    ensures StrictlySorted(tags)
    ensures forall t :: t in tags <==> InCatalogue(t)
  {
    SortSet(set l, t | l in FeelingsByMood && t in FeelingsByMood[l] :: t)
  }

  /** Every level has an entry, so the lookup's empty fallback is never used. */
  lemma CatalogueCoversEveryLevel(level: MoodLevel)
    ensures level in FeelingsByMood
    ensures 7 <= |FeelingsByMood[level]| <= 8
  {
  }

  /** Each recommended tag also appears in the list of all tags. */
  lemma RecommendedAmongAll(moodValue: real)
    ensures forall t :: t in RecommendedFeelings(moodValue) ==> t in AllFeelings()
  {
    var level := FromScore(moodValue);
    forall t | t in RecommendedFeelings(moodValue)
      ensures t in AllFeelings()
    {
      assert level in FeelingsByMood && t in FeelingsByMood[level];
    }
  }

  /** A tag that survives being joined with ", " and put on a line of its own. */
  predicate PlainTag(tag: string)
  {
    tag != "" && ',' !in tag && '\n' !in tag
  }

  predicate PlainTags(tags: seq<string>)
  {
    forall t :: t in tags ==> PlainTag(t)
  }

  // One lemma per list keeps each check of literal strings small.
  lemma VeryUnpleasantTagsPlain() ensures PlainTags(VeryUnpleasantFeelings) {}
  lemma UnpleasantTagsPlain() ensures PlainTags(UnpleasantFeelings) {}
  lemma NeutralTagsPlain() ensures PlainTags(NeutralFeelings) {}
  lemma PleasantTagsPlain() ensures PlainTags(PleasantFeelings) {}
  lemma VeryPleasantTagsPlain() ensures PlainTags(VeryPleasantFeelings) {}

  /** Every tag of the catalogue is plain. */
  lemma CatalogueTagsPlain(tag: string)
    requires InCatalogue(tag)
    ensures PlainTag(tag)
  {
    var l :| l in FeelingsByMood && tag in FeelingsByMood[l];
    match l
    case VeryUnpleasant => VeryUnpleasantTagsPlain();
    case Unpleasant => UnpleasantTagsPlain();
    case Neutral => NeutralTagsPlain();
    case Pleasant => PleasantTagsPlain();
    case VeryPleasant => VeryPleasantTagsPlain();
  }
}
