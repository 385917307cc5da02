# NeuroLife mood journal — a Dafny model

NeuroLife is a SwiftUI wellness app. The core of its logic is the mood
journal's analysis screen, which has these parts:

- a slider score, classified into one of five mood levels;
- a fixed catalogue of feeling tags, grouped by level;
- a set of tags the user has selected;
- an "Analyze Mood" button that writes a fixed-format response text.

Next to it sit three smaller pieces of logic:

- the chat screen, whose bot echoes every message;
- the expense and earning forms, whose Save buttons need two filled fields;
- the "Today" and "Week" entries that open a mood log, with and without
  the current time.

This project models that logic and proves properties of it.

Module layout:

- `Mood` (`mood_level.dfy`): the `MoodLevel` enum with its raw values,
  glyphs and display text, and `fromScore` specified by a table of closed
  score bands.
- `StringOrder` (`string_order.dfy`): the ascending string order used by
  `sorted()`, and `SortSet`, the sorted listing of a set. It proves that a
  set has exactly one strictly sorted listing.
- `Joining` (`joining.dfy`): `joined(separator:)`, together with a
  splitting function that undoes it.
- `Feelings` (`feelings.dfy`): the tag catalogue, `recommendedFeelings`
  and `allFeelings`.
- `MoodAnalysis` (`mood_analysis.dfy`): the screen's state as a class.
  Its fields are `moodValue`, `selectedFeelings` and `aiResponse`, and
  its methods are the slider, the tag buttons and "Analyze Mood". The
  module also has a parser that reads a response text back, so the
  response format comes with a proved round trip.
- `Chat` (`chat.dfy`): the chat screen's state as a class, with the chat
  log specified by the list of messages sent.
- `FinanceForms` (`finance_forms.dfy`): when each form's Save button is
  enabled.

## Model

| member | source | states |
|---|---|---|
| Mood.RawValue | Neurolife/ContentView.swift:8-12 | each level's raw value is a non-empty, single-line label |
| Mood.FromRawValue | Neurolife/ContentView.swift:7-12 | `MoodLevel(rawValue:)` returns exactly the level whose raw value is the given string, and nothing for any other string |
| Mood.RawValuesDistinct | Neurolife/ContentView.swift:8-12 | two levels have the same raw value iff they are the same level |
| Mood.FromScore | Neurolife/ContentView.swift:14-23 | the level is the one whose closed band holds the score; a score in no band (below 1, above 10, or in a gap such as (2.5, 2.6)) gets Neutral |
| Mood.FromScoreExactly | Neurolife/ContentView.swift:14-22 | both directions: `fromScore(s) == l` iff s is in l's band, or l is Neutral and s is in no band |
| Mood.BandsDisjoint | Neurolife/ContentView.swift:16-20 | no score lies in two bands, so the switch's case order never decides the result |
| Mood.BandsAscending | Neurolife/ContentView.swift:16-20 | every band, the last one included, is non-empty, and each band lies strictly above the previous level's band |
| Mood.OutsideBandsIsNeutral | Neurolife/ContentView.swift:21 | scores outside 1...10 and in the four gaps between bands fall to the default case, Neutral |
| Mood.SliderLevels | Neurolife/ContentView.swift:634 | the slider positions 1, 3, 5, 7 and 9 give the five levels in order; 2.55, a gap score, gives Neutral |
| Mood.SliderReachesEveryLevel | Neurolife/ContentView.swift:634 | every level is reached by exactly one slider position |
| Mood.Emoji | Neurolife/ContentView.swift:25-33 | each level's glyph is a single character of the Unicode Emoticons block (U+1F600 to U+1F64F) |
| Mood.EmojisDistinct | Neurolife/ContentView.swift:25-33 | two levels share a glyph iff they are equal |
| Mood.DisplayTextNamesLevel | Neurolife/ContentView.swift:35-37 | `DisplayText`, the display text, is the glyph, a space and the raw value, and it determines the level |
| StringOrder.SortSet | Neurolife/ContentView.swift:569 | `sorted()` of a set lists every element exactly once, in strictly ascending order, and nothing else |
| StringOrder.SortSetCharacterized | Neurolife/ContentView.swift:719 | any strictly sorted listing of a set's elements is `sorted()` of that set |
| StringOrder.SortedUnique | Neurolife/ContentView.swift:719 | two strictly sorted sequences with the same elements are equal |
| Joining.SplitJoin | Neurolife/ContentView.swift:719 | for a non-empty list whose parts do not hold the separator's first character, splitting `Join` (`joined(separator:)`) at the same separator gives the parts back |
| Feelings.RecommendedFeelings | Neurolife/ContentView.swift:576-578 | the recommended tags are the catalogue list of the current score's level; the `?? []` fallback is never taken, so there are 7 or 8 tags |
| Feelings.CatalogueCoversEveryLevel | Neurolife/ContentView.swift:560-566 | every level has an entry in `FeelingsByMood` (`feelingsByMood`), with 7 or 8 tags |
| Feelings.AllFeelings | Neurolife/ContentView.swift:568-570 | the list of all tags is strictly ascending and holds exactly the tags of the catalogue |
| Feelings.RecommendedAmongAll | Neurolife/ContentView.swift:576-578 | every recommended tag also appears in the list of all tags |
| Feelings.CatalogueTagsPlain | Neurolife/ContentView.swift:561-565 | every catalogue tag is non-empty and contains neither ',' nor a line break |
| MoodAnalysis.FormattedTimestamp | Neurolife/ContentView.swift:580-585 | with no timestamp, the text is "N/A"; otherwise it is the formatted timestamp |
| MoodAnalysis.TimeCaption | Neurolife/ContentView.swift:623-627 | the "Time:" caption is shown iff the logging type is "Today", and it shows the formatted timestamp or "N/A" |
| MoodAnalysis.Toggled | Neurolife/ContentView.swift:693-699 | a tag button flips that tag's membership and leaves every other tag as it was |
| MoodAnalysis.ToggleTwice | Neurolife/ContentView.swift:693-699 | pressing the same tag twice restores the selection |
| MoodAnalysis.AnalysisText | Neurolife/ContentView.swift:718-724 | the response is the headline, the feelings line and, only for a "Today" session with a timestamp, the "Logged at" line, separated by line breaks |
| MoodAnalysis.AnalyzeGate | Neurolife/ContentView.swift:664 | after a tag press, the Analyze button is disabled (empty selection) iff that tag was the only one selected |
| MoodAnalysis.HeadlineRoundTrip | Neurolife/ContentView.swift:720 | the response's first line gives back its logging type ("Today" or "Week") and level |
| MoodAnalysis.FeelingsRoundTrip | Neurolife/ContentView.swift:719 | for non-empty tags without ',' or line breaks (every catalogue tag), splitting the feelings list at ", " gives back the sorted selection, including the empty one |
| MoodAnalysis.ParseAnalysisText | Neurolife/ContentView.swift:718-724 | the response can be read back into exactly its logging type, its level, the sorted selection, and the timestamp iff the session is for today and has one |
| MoodAnalysis.SessionResponseRecoverable | Neurolife/ContentView.swift:718-724 | the same holds for any selection of catalogue tags, at any score |
| MoodAnalysis.TodayExample | Neurolife/ContentView.swift:718-724 | score 9 with Proud and Joyful selected, for today, gives "…Very Pleasant", then "Feelings: Joyful, Proud", then the logged time |
| MoodAnalysis.WeekEmptyExample | Neurolife/ContentView.swift:718-724 | a week session at score 5 with nothing selected has an empty feelings list and no time line |
| MoodAnalysis.MoodAnalysisView.constructor | Neurolife/ContentView.swift:553-558 | a session starts at score 5, with nothing selected and the placeholder text |
| MoodAnalysis.ListedIffSelected | Neurolife/ContentView.swift:664 | a selection of catalogue tags gives a non-empty feelings list iff it is not empty |
| MoodAnalysis.MoodAnalysisView.Level | Neurolife/ContentView.swift:572-574 | on a slider position, the score lies inside the band of its level, never in the fallback |
| MoodAnalysis.MoodAnalysisView.AnalyzeEnabled | Neurolife/ContentView.swift:664 | in a valid session, Analyze is enabled iff the response would list at least one feeling |
| MoodAnalysis.MoodAnalysisView.MoveSlider | Neurolife/ContentView.swift:634 | the slider sets the score to one of its positions and keeps the session valid |
| MoodAnalysis.MoodAnalysisView.ToggleFeeling | Neurolife/ContentView.swift:693-699 | the selection becomes the toggled selection, it still holds only catalogue tags, and Analyze is enabled afterwards iff the selection was not just this tag |
| MoodAnalysis.MoodAnalysisView.AnalyzeMood | Neurolife/ContentView.swift:718-724 | after the assignment and the conditional append, the response is the response text of the session's type, level, selection and timestamp; for a "Today" or "Week" session it reads back as that level, the sorted selection, and the timestamp for today only |
| MoodAnalysis.Opening | Neurolife/ContentView.swift:492-502 | the "Today" entry opens a session of type "Today" with the current time; the "Week" entry opens a session of type "Week" with none |
| MoodAnalysis.Open | Neurolife/ContentView.swift:492-502 | a newly opened session has the entry's type and timestamp, score 5, nothing selected and the placeholder text |
| MoodAnalysis.OpenedSessionResponse | Neurolife/ContentView.swift:492-502 | the response of a session opened either way reads back as its level and sorted selection, with the opening time for today and no time for the week |
| Chat.Transcript | Neurolife/ContentView.swift:300-305 | after messages m0…mn are sent, the chat log has 2(n+1) lines: line 2k is "You: mk" and line 2k+1 is "Bot: Response to mk" |
| Chat.UserLinesAreEven | Neurolife/ContentView.swift:276 | a chat line starts with "You:", and so gets the user's colour, iff it is at an even position |
| Chat.ChatView.constructor | Neurolife/ContentView.swift:263-264 | the chat starts with an empty message and an empty log |
| Chat.ChatView.SetMessage | Neurolife/ContentView.swift:286 | typing or a transcription replaces the message, and the log still matches the messages sent |
| Chat.ChatView.Send | Neurolife/ContentView.swift:300-305 | Send appends the user's line and the bot's echo, clears the message, and keeps the log equal to the transcript of the messages sent |
| FinanceForms.ExpenseSaveRule | Neurolife/ContentView.swift:439 | by `ExpenseSaveDisabled`, the expense Save button is enabled iff both the amount and the category are non-empty; the notes play no part |
| FinanceForms.EarningSaveRule | Neurolife/ContentView.swift:466 | by `EarningSaveDisabled`, the earning Save button is enabled iff both the amount and the source are non-empty; the notes play no part |
| FinanceForms.SameRule | Neurolife/ContentView.swift:466 | the earning form follows the expense form's rule, with the source in place of the category |

## Left out

- The SwiftUI views are not modelled: layout, colours, navigation, sheets and `dismiss`. Neither is `dynamicMoodColor` (ContentView.swift:587-604), a floating-point colour opacity.
- `SpeechRecognizer` (ContentView.swift:322-367) talks to the platform speech APIs, so it is not modelled. Only its callback, which replaces the chat message, is kept, as `Chat.ChatView.SetMessage`.
- The `@AppStorage` persistence at ContentView.swift:53-65 is platform storage and is not modelled. It stores the personal information (name, age, gender, conditions, allergies, medications) and the medication list.
- The sample `moodData` and the line chart (ContentView.swift:475-483 and 527-547) only draw a picture, so they are not modelled.
- The `print` at ContentView.swift:123 is I/O and is not modelled.
- Dates are not modelled. A session's timestamp is the text that `DateFormatter` produces for it, with format "dd MMM yyyy, h:mm a", held as an `Option<string>`. The current time, `Date()` at ContentView.swift:492, is the parameter `now` of `MoodAnalysis.Opening`, already formatted. The round-trip lemmas require it to hold no line break, which that format never produces.
- Slider values are exact `real` numbers, not `Double`. The bands' bounds are decimal literals, so rounding of binary floating point near 2.5/2.6 and the other band edges is not modelled.
- Swift compares strings by Unicode canonical equivalence. The model compares code points one by one, which agrees on the catalogue's ASCII tags.
- MoodAnalysis.ParseAnalysisText: the round trip is proved only for the logging types "Today" and "Week" (the two the app passes, ContentView.swift:492 and 502). It also requires non-empty tags without ',' or line breaks and a timestamp without line breaks. Any other type or tag can make the response ambiguous: the selection {""}, for one, gives the same empty feelings line as no selection.
- MoodAnalysis.MoodAnalysisView.ToggleFeeling requires the tag to be in the catalogue. The source's buttons are built only from catalogue tags (ContentView.swift:648 and 658), so no other tag can be pressed.
- MoodAnalysis.MoodAnalysisView.MoveSlider requires a slider position (1, 3, 5, 7 or 9), since `Slider(in: 1...10, step: 2)` produces only those values.
- MoodAnalysis.MoodAnalysisView.AnalyzeMood requires a valid session: slider positions only and catalogue tags only. Every session built by the constructor and changed by the buttons is valid. It has no requirement that the selection is non-empty. The button's `.disabled` guard belongs to the view; the function itself accepts an empty selection, and so does the model.
- Chat.ChatView.Send accepts an empty message, as the source does: it has no guard.
- The model follows the code's closed bands (ContentView.swift:16-20). They leave gaps, and a score in a gap falls back to Neutral.
