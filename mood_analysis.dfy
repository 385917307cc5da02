/**
 * The state of one mood-logging session: the slider score, the set of
 * selected feeling tags, and the text of the last analysis, together with
 * the operations the session's buttons perform on it.
 */
module MoodAnalysis {
  import opened Wrappers
  import opened Mood
  import opened StringOrder
  import opened Joining
  import opened Feelings

  /** The text shown before the first analysis. */
  const Placeholder: string := "Your AI result will appear here."

  /**
   * `formattedTimestamp`. The session's timestamp is kept as the text the
   * date formatter produces for it; a session without one shows "N/A".
   */
  function FormattedTimestamp(timestamp: Option<string>): (text: string)
    ensures timestamp.None? ==> text == "N/A"
    ensures timestamp.Some? ==> text == timestamp.value
  {
    match timestamp
    case None => "N/A"
    case Some(formatted) => formatted
  }

  /** The "Time:" caption, shown only in a session logged for today. */
  function TimeCaption(loggingType: string, timestamp: Option<string>): (caption: Option<string>)
    ensures caption.Some? <==> loggingType == "Today"
    ensures loggingType == "Today" && timestamp.None? ==> caption == Some(TimeLabel + "N/A")
    ensures loggingType == "Today" && timestamp.Some? ==> caption == Some(TimeLabel + timestamp.value)
  {
    if loggingType == "Today" then Some(TimeLabel + FormattedTimestamp(timestamp)) else None
  }

  const TimeLabel: string := "\U{1F552} Time: "

  /** The selection after the button of tag `f` is pressed. */
  function Toggled(selected: set<string>, f: string): (result: set<string>)
    ensures f in result <==> f !in selected
    ensures forall g :: g != f ==> (g in result <==> g in selected)
  {
    if f in selected then selected - {f} else selected + {f}
  }

  /** Pressing the same tag twice restores the selection. */
  lemma ToggleTwice(selected: set<string>, f: string)
    ensures Toggled(Toggled(selected, f), f) == selected
  {
  }

  /** After a tag button, Analyze is disabled exactly when that tag was the only one selected. */
  lemma AnalyzeGate(selected: set<string>, f: string)
    ensures Toggled(selected, f) == {} <==> selected == {f}
  {
    if Toggled(selected, f) == {} {
      assert f in selected;
      assert forall g :: g in selected ==> g == f || g in Toggled(selected, f);
    }
  }

  /**
   * `analyzeMood`: the response text for a logging type, a level, a selection
   * and a timestamp. It is the headline, the feelings line and, only for a
   * timed session of today, the "Logged at" line, separated by line breaks.
   */
  function AnalysisText(loggingType: string, level: MoodLevel, selected: set<string>, timestamp: Option<string>): (text: string)
    ensures text == Join(ResponseLines(loggingType, RawValue(level), Join(SortSet(selected), ", "), LoggedAt(loggingType, timestamp)), "\n")
  {
    var list := Join(SortSet(selected), ", ");
    ResponseLayout(loggingType, RawValue(level), list, LoggedAt(loggingType, timestamp));
    var text := HeadlineStart(loggingType) + RawValue(level) + "\n" + FeelingsStart + list;
    if loggingType == "Today" && timestamp.Some? then
      text + "\n" + LoggedAtStart + FormattedTimestamp(timestamp)
    else
      text
  }

  // ---------------------------------------------------------------------
  // Reading a response back

  /** What a response says: logging type, level, the listed tags and the logged time, if any. */
  datatype Analysis = Analysis(loggingType: string, level: MoodLevel, feelings: seq<string>, loggedAt: Option<string>)

  function HeadlineStart(loggingType: string): string
  {
    "\U{1F9E0} Analyzing " + loggingType + " mood: "
  }

  const FeelingsStart: string := "\U{1F9FE} Feelings: "
  const LoggedAtStart: string := "\U{1F552} Logged at: "

  /** The rest of `s` after `prefix`, when `s` starts with it. */
  function StripPrefix(prefix: string, s: string): (rest: Option<string>)
    ensures rest.Some? <==> prefix <= s
    ensures rest.Some? ==> s == prefix + rest.value
  {
    if prefix <= s then Some(s[|prefix|..]) else None
  }

  function ParseHeadlineFor(loggingType: string, line: string): Option<(string, MoodLevel)>
  {
    match StripPrefix(HeadlineStart(loggingType), line)
    case None => None
    case Some(raw) =>
      match FromRawValue(raw)
      case None => None
      case Some(level) => Some((loggingType, level))
  }

  /** The logging type and level of a first line, for the two logging types the app offers. */
  function ParseHeadline(line: string): Option<(string, MoodLevel)>
  {
    var today := ParseHeadlineFor("Today", line);
    if today.Some? then today else ParseHeadlineFor("Week", line)
  }

  /** Reads a response text back into its parts; None when it does not have the response's layout. */
  function ParseAnalysis(text: string): Option<Analysis>
  {
    var lines := Split(text, "\n");
    if |lines| != 2 && |lines| != 3 then None
    else
      match ParseHeadline(lines[0])
      case None => None
      case Some((loggingType, level)) =>
        match StripPrefix(FeelingsStart, lines[1])
        case None => None
        case Some(list) =>
          var feelings := if list == "" then [] else Split(list, ", ");
          if |lines| == 2 then Some(Analysis(loggingType, level, feelings, None))
          else
            match StripPrefix(LoggedAtStart, lines[2])
            case None => None
            case Some(loggedAt) => Some(Analysis(loggingType, level, feelings, Some(loggedAt)))
  }

  lemma {:induction false} HeadlineRoundTrip(loggingType: string, level: MoodLevel)
    requires loggingType == "Today" || loggingType == "Week"
    ensures ParseHeadline(HeadlineStart(loggingType) + RawValue(level)) == Some((loggingType, level))
  {
    var line := HeadlineStart(loggingType) + RawValue(level);
    assert StripPrefix(HeadlineStart(loggingType), line) == Some(RawValue(level));
    if loggingType == "Week" {
      assert line[12] == 'W' && HeadlineStart("Today")[12] == 'T';
      assert !(HeadlineStart("Today") <= line);
    }
  }

  /** The feelings segment of a response lists the sorted selection, and splitting at ", " recovers it. */
  lemma {:induction false} FeelingsRoundTrip(selected: set<string>)
    requires forall t :: t in selected ==> PlainTag(t)
    ensures var list := Join(SortSet(selected), ", ");
            (if list == "" then [] else Split(list, ", ")) == SortSet(selected)
  {
    var tags := SortSet(selected);
    if tags != [] {
      assert tags[0] in selected;
      JoinLength(tags, ", ", 0);
      forall p | p in tags
        ensures FreeOf(p, ", ")
      {
        assert p in selected;
      }
      SplitJoin(tags, ", ");
    }
  }

  /** The lines of a response, before they are joined with line breaks. */
  function ResponseLines(loggingType: string, raw: string, list: string, loggedAt: Option<string>): seq<string>
  {
    var lines := [HeadlineStart(loggingType) + raw, FeelingsStart + list];
    match loggedAt
    case None => lines
    case Some(ts) => lines + [LoggedAtStart + ts]
  }

  /** The response layout: headline, feelings line and optional time line, joined with line breaks. */
  lemma ResponseLayout(loggingType: string, raw: string, list: string, loggedAt: Option<string>)
    ensures var text := HeadlineStart(loggingType) + raw + "\n" + FeelingsStart + list;
            var lines := ResponseLines(loggingType, raw, list, loggedAt);
            match loggedAt
            case None => text == Join(lines, "\n")
            case Some(ts) => text + "\n" + LoggedAtStart + ts == Join(lines, "\n")
  {
    var line1 := HeadlineStart(loggingType) + raw;
    var line2 := FeelingsStart + list;
    JoinTwo(line1, line2, "\n");
    if loggedAt.Some? {
      var line3 := LoggedAtStart + loggedAt.value;
      JoinThree(line1, line2, line3, "\n");
      assert [line1, line2] + [line3] == [line1, line2, line3];
    }
  }

  /** The time stamp a response carries: the session's, for a timed session of today. */
  function LoggedAt(loggingType: string, timestamp: Option<string>): Option<string>
  {
    if loggingType == "Today" then timestamp else None
  }

  lemma ResponseLinesOneLine(loggingType: string, raw: string, list: string, loggedAt: Option<string>)
    requires '\n' !in loggingType && '\n' !in raw && '\n' !in list
    requires loggedAt.Some? ==> '\n' !in loggedAt.value
    ensures forall line :: line in ResponseLines(loggingType, raw, list, loggedAt) ==> FreeOf(line, "\n")
  {
    assert '\n' !in HeadlineStart(loggingType) + raw;
    assert '\n' !in FeelingsStart + list;
    assert loggedAt.Some? ==> '\n' !in LoggedAtStart + loggedAt.value;
  }

  /** Reading back the lines of a response whose parts hold no line break. */
  lemma {:induction false} ParseResponseLines(loggingType: string, level: MoodLevel, list: string, loggedAt: Option<string>)
    requires loggingType == "Today" || loggingType == "Week"
    requires '\n' !in list
    requires loggedAt.Some? ==> '\n' !in loggedAt.value
    ensures ParseAnalysis(Join(ResponseLines(loggingType, RawValue(level), list, loggedAt), "\n"))
         == Some(Analysis(loggingType, level, if list == "" then [] else Split(list, ", "), loggedAt))
  {
    var lines := ResponseLines(loggingType, RawValue(level), list, loggedAt);
    ResponseLinesOneLine(loggingType, RawValue(level), list, loggedAt);
    SplitJoin(lines, "\n");
    HeadlineRoundTrip(loggingType, level);
    assert StripPrefix(FeelingsStart, lines[1]) == Some(list);
    if loggedAt.Some? {
      assert StripPrefix(LoggedAtStart, lines[2]) == Some(loggedAt.value);
    }
  }

  /**
   * A response names its logging type and level, lists exactly the selected
   * tags in ascending order, and carries a "Logged at" line if and only if
   * the session is for today and has a timestamp, with that timestamp.
   */
  lemma {:induction false} ParseAnalysisText(loggingType: string, level: MoodLevel, selected: set<string>, timestamp: Option<string>)
    requires loggingType == "Today" || loggingType == "Week"
    requires forall t :: t in selected ==> PlainTag(t)
    requires timestamp.Some? ==> '\n' !in timestamp.value
    ensures ParseAnalysis(AnalysisText(loggingType, level, selected, timestamp))
         == Some(Analysis(loggingType, level, SortSet(selected), LoggedAt(loggingType, timestamp)))
  {
    var tags := SortSet(selected);
    forall p | p in tags
      ensures '\n' !in p
    {
      assert p in selected;
    }
    JoinAvoids(tags, ", ", '\n');
    ParseResponseLines(loggingType, level, Join(tags, ", "), LoggedAt(loggingType, timestamp));
    FeelingsRoundTrip(selected);
  }

  // ---------------------------------------------------------------------
  // The session

  /** A selection of catalogue tags is listed in a response exactly when it is not empty. */
  lemma ListedIffSelected(selected: set<string>)
    ensures (forall f :: f in selected ==> InCatalogue(f)) ==> (Join(SortSet(selected), ", ") != "" <==> selected != {})
  {
    var tags := SortSet(selected);
    if tags != [] && forall f :: f in selected ==> InCatalogue(f) {
      assert tags[0] in selected;
      CatalogueTagsPlain(tags[0]);
      JoinLength(tags, ", ", 0);
    }
  }

  class MoodAnalysisView {
    const loggingType: string
    const timestamp: Option<string>
    var moodValue: real
    var selectedFeelings: set<string>
    var aiResponse: string

    /** The slider stays on its positions and only catalogue tags can be selected. */
    ghost predicate Valid()
      reads this
    {
      OnSlider(moodValue) && forall f :: f in selectedFeelings ==> InCatalogue(f)
    }

    constructor (loggingType: string, timestamp: Option<string>)
      ensures Valid()
      ensures this.loggingType == loggingType && this.timestamp == timestamp
      ensures moodValue == 5.0 && selectedFeelings == {} && aiResponse == Placeholder
    {
      this.loggingType := loggingType;
      this.timestamp := timestamp;
      moodValue := 5.0;
      selectedFeelings := {};
      aiResponse := Placeholder;
    }

    /** `moodLevel`: the level of the current score; on a slider position the score lies inside that level's band. */
    function Level(): (level: MoodLevel)
      reads this
      ensures OnSlider(moodValue) ==> InBand(moodValue, level)
    {
      FromScore(moodValue)
    }

    /** The Analyze button is enabled exactly when some tag is selected, that is, when the response would list a feeling. */
    predicate AnalyzeEnabled()
      reads this
      ensures Valid() ==> (AnalyzeEnabled() <==> Join(SortSet(selectedFeelings), ", ") != "")
    {
      ListedIffSelected(selectedFeelings);
      selectedFeelings != {}
    }

    /** Moving the slider to one of its positions. */
    method MoveSlider(value: real)
      requires Valid() && OnSlider(value)
      modifies this`moodValue
      ensures Valid()
      ensures moodValue == value
    {
      moodValue := value;
    }

    /** A tag button: removes the tag when selected, inserts it otherwise. */
    method ToggleFeeling(feeling: string)
      requires Valid() && InCatalogue(feeling)
      modifies this`selectedFeelings
      ensures Valid()
      ensures selectedFeelings == Toggled(old(selectedFeelings), feeling)
      ensures AnalyzeEnabled() <==> old(selectedFeelings) != {feeling}
    {
      AnalyzeGate(selectedFeelings, feeling);
      if feeling in selectedFeelings {
        selectedFeelings := selectedFeelings - {feeling};
      } else {
        selectedFeelings := selectedFeelings + {feeling};
      }
    }

    /**
     * The Analyze button: writes the response, then appends the logged time
     * for a timed session of today. For the two logging types the app opens,
     * the response reads back as the session's level, its sorted selection
     * and, for today only, its timestamp.
     */
    method AnalyzeMood()
      requires Valid()
      modifies this`aiResponse
      ensures Valid()
      ensures aiResponse == AnalysisText(loggingType, Level(), selectedFeelings, timestamp)
      ensures (loggingType == "Today" || loggingType == "Week") && (timestamp.Some? ==> '\n' !in timestamp.value)
              ==> ParseAnalysis(aiResponse)
                  == Some(Analysis(loggingType, Level(), SortSet(selectedFeelings), LoggedAt(loggingType, timestamp)))
    {
      var selected := Join(SortSet(selectedFeelings), ", ");
      aiResponse := HeadlineStart(loggingType) + RawValue(Level()) + "\n" + FeelingsStart + selected;
      if loggingType == "Today" && timestamp.Some? {
        aiResponse := aiResponse + "\n" + LoggedAtStart + FormattedTimestamp(timestamp);
      }
      if (loggingType == "Today" || loggingType == "Week") && (timestamp.Some? ==> '\n' !in timestamp.value) {
        SessionResponseRecoverable(loggingType, moodValue, selectedFeelings, timestamp);
      }
    }
  }

  /**
   * In a valid session of either logging type, the response lists exactly the
   * selected tags, sorted, and its logged time is the session's timestamp.
   */
  lemma SessionResponseRecoverable(loggingType: string, moodValue: real, selected: set<string>, timestamp: Option<string>)
    requires loggingType == "Today" || loggingType == "Week"
    requires forall f :: f in selected ==> InCatalogue(f)
    requires timestamp.Some? ==> '\n' !in timestamp.value
    ensures ParseAnalysis(AnalysisText(loggingType, FromScore(moodValue), selected, timestamp))
         == Some(Analysis(loggingType, FromScore(moodValue), SortSet(selected), LoggedAt(loggingType, timestamp)))
  {
    forall t | t in selected
      ensures PlainTag(t)
    {
      CatalogueTagsPlain(t);
    }
    ParseAnalysisText(loggingType, FromScore(moodValue), selected, timestamp);
  }

  // ---------------------------------------------------------------------
  // Opening a session

  /** The two entries of the logging-type screen. */
  datatype LoggingChoice = LogToday | LogWeek

  /**
   * The logging type and timestamp each entry gives the session it opens:
   * "Today" with the current time, formatted as `now`, and "Week" with none.
   */
  function Opening(choice: LoggingChoice, now: string): (session: (string, Option<string>))
    ensures session.0 == "Today" || session.0 == "Week"
    ensures session.0 == "Today" <==> choice == LogToday
    ensures session.1 == (if choice == LogToday then Some(now) else None)
  {
    match choice
    case LogToday => ("Today", Some(now))
    case LogWeek => ("Week", None)
  }

  /** Opens a session from one of the two entries. */
  method Open(choice: LoggingChoice, now: string) returns (view: MoodAnalysisView)
    ensures fresh(view) && view.Valid()
    ensures (view.loggingType, view.timestamp) == Opening(choice, now)
    ensures view.moodValue == 5.0 && view.selectedFeelings == {} && view.aiResponse == Placeholder
  {
    var session := Opening(choice, now);
    view := new MoodAnalysisView(session.0, session.1);
  }

  /**
   * A response from a session opened either way reads back as its level and
   * sorted selection; it carries the opening time for a session of today and
   * no time for a session of the week.
   */
  lemma OpenedSessionResponse(choice: LoggingChoice, now: string, moodValue: real, selected: set<string>)
    requires '\n' !in now
    requires forall f :: f in selected ==> InCatalogue(f)
    ensures var (loggingType, timestamp) := Opening(choice, now);
            ParseAnalysis(AnalysisText(loggingType, FromScore(moodValue), selected, timestamp))
              == Some(Analysis(loggingType, FromScore(moodValue), SortSet(selected), if choice == LogToday then Some(now) else None))
  {
    var (loggingType, timestamp) := Opening(choice, now);
    SessionResponseRecoverable(loggingType, moodValue, selected, timestamp);
  }

  // ---------------------------------------------------------------------
  // Examples

  /** The two example tags are listed in ascending order. */
  lemma ExampleFeelingsLine()
    ensures Join(SortSet({"Proud", "Joyful"}), ", ") == "Joyful, Proud"
  {
    assert Less("Joyful", "Proud");
    SortSetCharacterized({"Proud", "Joyful"}, ["Joyful", "Proud"]);
    JoinTwo("Joyful", "Proud", ", ");
  }

  /** A session for today with the top slider score and two tags. */
  lemma TodayExample(timestamp: string)
    ensures AnalysisText("Today", FromScore(9.0), {"Proud", "Joyful"}, Some(timestamp))
         == HeadlineStart("Today") + "Very Pleasant" + "\n" + FeelingsStart + "Joyful, Proud" + "\n" + LoggedAtStart + timestamp
  {
    assert FromScore(9.0) == VeryPleasant;
    ExampleFeelingsLine();
  }

  /** A session for the week with nothing selected: an empty feelings list and no time line. */
  lemma WeekEmptyExample()
    ensures AnalysisText("Week", FromScore(5.0), {}, None) == HeadlineStart("Week") + "Neutral" + "\n" + FeelingsStart
  {
    assert FromScore(5.0) == Neutral;
    assert SortSet({}) == [];
  }
}
