/** The daily journal (components/journal.tsx): tags and canned insights
    derived from an entry's text, and the list of saved entries, newest
    first. */
module Journal {
  import opened Text

  type Day = int

  /** The tags `extractTags` can give an entry, in the order it tests them. */
  datatype Tag = Study | Exercise | Nutrition | RestNeeded | Positive | Reading

  const AllTags: seq<Tag> := [Study, Exercise, Nutrition, RestNeeded, Positive, Reading]

  /** The text under which a tag is stored. */
  function Label(t: Tag): string {
    match t
    case Study => "study"
    case Exercise => "exercise"
    case Nutrition => "nutrition"
    case RestNeeded => "rest-needed"
    case Positive => "positive"
    case Reading => "reading"
  }

  /** Different tags are stored under different texts, so keeping tags as
      `Tag` values loses nothing. */
  lemma LabelInjective(t: Tag, u: Tag)
    ensures Label(t) == Label(u) ==> t == u
  {
  }

  /** The position of a tag in `AllTags`. */
  function Rank(t: Tag): (k: nat)
    ensures k < |AllTags| && AllTags[k] == t
  {
    match t
    case Study => 0
    case Exercise => 1
    case Nutrition => 2
    case RestNeeded => 3
    case Positive => 4
    case Reading => 5
  }

  /** The test `extractTags` makes for a tag on the lower-cased entry: one
      of its two keywords occurs in it. */
  predicate Fires(t: Tag, lowered: string) {
    match t
    case Study => Contains(lowered, "study") || Contains(lowered, "learn")
    case Exercise => Contains(lowered, "exercise") || Contains(lowered, "walk")
    case Nutrition => Contains(lowered, "food") || Contains(lowered, "eat")
    case RestNeeded => Contains(lowered, "tired") || Contains(lowered, "stress")
    case Positive => Contains(lowered, "happy") || Contains(lowered, "good")
    case Reading => Contains(lowered, "read") || Contains(lowered, "book")
  }

  /** The tags found after the first `k` tests. */
  function TagsUpTo(lowered: string, k: nat): seq<Tag>
    requires k <= |AllTags|
  {
    if k == 0 then []
    else
      var before := TagsUpTo(lowered, k - 1);
      if Fires(AllTags[k - 1], lowered) then before + [AllTags[k - 1]] else before
  }

  /** The tags of an entry. */
  function Tags(content: string): (r: seq<Tag>)
    ensures forall t :: t in r <==> Fires(t, Lower(content))
    ensures |r| <= |AllTags|
  {
    TagsUpToFacts(Lower(content), |AllTags|);
    TagsUpTo(Lower(content), |AllTags|)
  }

  /** No element occurs twice. */
  predicate NoDuplicates<T(==)>(s: seq<T>) {
    forall i, j :: 0 <= i < j < |s| ==> s[i] != s[j]
  }

  /** After `k` tests, the tags found are those among the first `k` whose
      test fired, listed in the order they were tested. */
  lemma {:induction false} TagsUpToFacts(lowered: string, k: nat)
    requires k <= |AllTags|
    ensures |TagsUpTo(lowered, k)| <= k
    ensures forall t :: t in TagsUpTo(lowered, k) <==> Rank(t) < k && Fires(t, lowered)
    ensures forall i, j :: 0 <= i < j < |TagsUpTo(lowered, k)| ==>
              Rank(TagsUpTo(lowered, k)[i]) < Rank(TagsUpTo(lowered, k)[j])
  {
    if k > 0 {
      TagsUpToFacts(lowered, k - 1);
      var t := AllTags[k - 1];
      assert Rank(t) == k - 1 by {
        assert AllTags[Rank(t)] == t;
      }
      forall u ensures u in TagsUpTo(lowered, k) <==> Rank(u) < k && Fires(u, lowered) {
        if Rank(u) == k - 1 {
          assert u == t;
        }
      }
    }
  }

  /** An entry is given a tag exactly when one of that tag's keywords
      occurs in it, whatever the case of its letters. */
  lemma TagsIff(content: string, t: Tag)
    ensures t in Tags(content) <==> Fires(t, Lower(content))
  {
    TagsUpToFacts(Lower(content), |AllTags|);
  }

  /** The tags of an entry follow the order study, exercise, nutrition,
      rest-needed, positive, reading; so none is repeated and there are at
      most six. */
  lemma TagsOrdered(content: string)
    ensures forall i, j :: 0 <= i < j < |Tags(content)| ==> Rank(Tags(content)[i]) < Rank(Tags(content)[j])
    ensures NoDuplicates(Tags(content))
    ensures |Tags(content)| <= 6
  {
    TagsUpToFacts(Lower(content), |AllTags|);
  }

  /** `extractTags(content)`: six tests on the lower-cased text, each
      pushing its tag when it fires. */
  method ExtractTags(content: string) returns (tags: seq<Tag>)
    ensures tags == Tags(content)
  {
    var lowered := Lower(content);
    tags := [];
    if Contains(lowered, "study") || Contains(lowered, "learn") {
      tags := tags + [Study];
    }
    assert tags == TagsUpTo(lowered, 1);
    if Contains(lowered, "exercise") || Contains(lowered, "walk") {
      tags := tags + [Exercise];
    }
    assert tags == TagsUpTo(lowered, 2);
    if Contains(lowered, "food") || Contains(lowered, "eat") {
      tags := tags + [Nutrition];
    }
    assert tags == TagsUpTo(lowered, 3);
    if Contains(lowered, "tired") || Contains(lowered, "stress") {
      tags := tags + [RestNeeded];
    }
    assert tags == TagsUpTo(lowered, 4);
    if Contains(lowered, "happy") || Contains(lowered, "good") {
      tags := tags + [Positive];
    }
    assert tags == TagsUpTo(lowered, 5);
    if Contains(lowered, "read") || Contains(lowered, "book") {
      tags := tags + [Reading];
    }
  }

  /** The insights `generateAIInsights` can give. */
  datatype Insight = LowMood | HighMood | TiredAdvice | StudyAdvice | NutritionAdvice | Fallback

  function Message(i: Insight): string {
    match i
    case LowMood =>
      "I notice you're feeling low today. Remember that difficult days help us grow stronger."
    case HighMood =>
      "Your positive energy is wonderful! This is a great time to tackle challenging tasks."
    case TiredAdvice =>
      "Consider adjusting your sleep schedule or taking more breaks during study sessions."
    case StudyAdvice =>
      "Your dedication to learning is admirable. Remember to balance study with rest and nutrition."
    case NutritionAdvice =>
      "Great that you're mindful of your nutrition! Keep focusing on iron-rich foods for your hemoglobin."
    case Fallback =>
      "Thank you for sharing your thoughts. Consistent journaling helps build self-awareness and emotional intelligence."
  }

  /** The insights chosen for a mood and the outcome of the three keyword
      tests (`tired`; `study`; `food` or `eat`), in the order they are
      tried. */
  function InsightsFor(mood: int, tired: bool, study: bool, food: bool): seq<Insight> {
    var byMood := if mood <= 3 then [LowMood] else if mood >= 8 then [HighMood] else [];
    var fired := byMood + (if tired then [TiredAdvice] else [])
                        + (if study then [StudyAdvice] else [])
                        + (if food then [NutritionAdvice] else []);
    if fired == [] then [Fallback] else fired
  }

  /** The insights for an entry of the given mood. */
  function Insights(mood: int, content: string): (r: seq<Insight>)
    ensures r != [] && |r| <= 4
    ensures LowMood in r <==> mood <= 3
    ensures HighMood in r <==> mood >= 8
    ensures Fallback in r ==> r == [Fallback]
  {
    var lowered := Lower(content);
    InsightsForFacts(mood, Contains(lowered, "tired"), Contains(lowered, "study"),
                     Contains(lowered, "food") || Contains(lowered, "eat"));
    InsightsFor(mood, Contains(lowered, "tired"), Contains(lowered, "study"),
                Contains(lowered, "food") || Contains(lowered, "eat"))
  }

  /** The mood insights: the low one exactly for moods up to 3, the
      positive one exactly for moods from 8, never both; each keyword
      insight exactly when its test fires; the fallback exactly when nothing
      else fired, and then alone; so there is always at least one. */
  lemma InsightsForFacts(mood: int, tired: bool, study: bool, food: bool)
    ensures LowMood in InsightsFor(mood, tired, study, food) <==> mood <= 3
    ensures HighMood in InsightsFor(mood, tired, study, food) <==> mood >= 8
    ensures !(LowMood in InsightsFor(mood, tired, study, food) && HighMood in InsightsFor(mood, tired, study, food))
    ensures TiredAdvice in InsightsFor(mood, tired, study, food) <==> tired
    ensures StudyAdvice in InsightsFor(mood, tired, study, food) <==> study
    ensures NutritionAdvice in InsightsFor(mood, tired, study, food) <==> food
    ensures Fallback in InsightsFor(mood, tired, study, food) <==> 3 < mood < 8 && !tired && !study && !food
    ensures Fallback in InsightsFor(mood, tired, study, food) ==> InsightsFor(mood, tired, study, food) == [Fallback]
    ensures InsightsFor(mood, tired, study, food) != []
  {
  }

  /** The same facts for an entry, in terms of its text. */
  lemma InsightsChoice(mood: int, content: string)
    ensures LowMood in Insights(mood, content) <==> mood <= 3
    ensures HighMood in Insights(mood, content) <==> mood >= 8
    ensures TiredAdvice in Insights(mood, content) <==> Contains(Lower(content), "tired")
    ensures StudyAdvice in Insights(mood, content) <==> Contains(Lower(content), "study")
    ensures NutritionAdvice in Insights(mood, content) <==>
              Contains(Lower(content), "food") || Contains(Lower(content), "eat")
    ensures Fallback in Insights(mood, content) <==>
              3 < mood < 8 && !Contains(Lower(content), "tired") && !Contains(Lower(content), "study") &&
              !Contains(Lower(content), "food") && !Contains(Lower(content), "eat")
    ensures Insights(mood, content) != []
  {
    var lowered := Lower(content);
    InsightsForFacts(mood, Contains(lowered, "tired"), Contains(lowered, "study"),
                     Contains(lowered, "food") || Contains(lowered, "eat"));
  }

  function Messages(chosen: seq<Insight>): (ms: seq<string>)
    ensures |ms| == |chosen| && forall k :: 0 <= k < |chosen| ==> ms[k] == Message(chosen[k])
  {
    seq(|chosen|, k requires 0 <= k < |chosen| => Message(chosen[k]))
  }

  /** `parts.join(" ")`. */
  function Join(parts: seq<string>): (r: string)
    ensures parts == [] ==> r == ""
    ensures |parts| == 1 ==> r == parts[0]
    ensures parts != [] ==> |r| >= |parts[0]|
  {
    if parts == [] then ""
    else if |parts| == 1 then parts[0]
    else parts[0] + " " + Join(parts[1..])
  }

  /** Pushing one more part and joining adds a single space and the part at
      the end, so the parts appear in the order they were pushed. */
  lemma {:induction false} JoinPush(parts: seq<string>, last: string)
    requires parts != []
    ensures Join(parts + [last]) == Join(parts) + " " + last
  {
    if |parts| > 1 {
      assert (parts + [last])[1..] == parts[1..] + [last];
      JoinPush(parts[1..], last);
    }
  }

  /** The text of the insights for an entry. */
  function InsightText(mood: int, content: string): string {
    Join(Messages(Insights(mood, content)))
  }

  /** `generateAIInsights(content, moodScore)`: the insights pushed one by
      one as their conditions hold, the fallback when none did, joined
      with spaces. The pushed insights are kept as `Insight` values and
      turned into their messages when joined. */
  method GenerateInsights(content: string, moodScore: int) returns (text: string)
    ensures text == InsightText(moodScore, content)
  {
    var lowered := Lower(content);
    var tired := Contains(lowered, "tired");
    var study := Contains(lowered, "study");
    var food := Contains(lowered, "food") || Contains(lowered, "eat");
    var insights: seq<Insight> := [];
    if moodScore <= 3 {
      insights := insights + [LowMood];
    } else if moodScore >= 8 {
      insights := insights + [HighMood];
    }
    if tired {
      insights := insights + [TiredAdvice];
    }
    if study {
      insights := insights + [StudyAdvice];
    }
    if food {
      insights := insights + [NutritionAdvice];
    }
    if |insights| == 0 {
      insights := insights + [Fallback];
    }
    assert insights == InsightsFor(moodScore, tired, study, food);
    text := Join(Messages(insights));
  }

  /** A saved journal entry. */
  datatype Entry = Entry(id: string, date: Day, content: string, mood: int, aiInsights: string, tags: seq<Tag>)

  /** The entry `saveEntry` records for a text and a mood. */
  function NewEntry(now: nat, today: Day, content: string, mood: int): (e: Entry)
    ensures e.content == content && e.mood == mood && e.date == today
    ensures e.tags == Tags(content) && e.aiInsights == InsightText(mood, content)
  {
    Entry(Digits(now), today, content, mood, InsightText(mood, content), Tags(content))
  }

  /** The `Journal` component's state. */
  class JournalBook {
    var currentEntry: string
    var mood: int
    var entries: seq<Entry>
    var isAnalyzing: bool

    /** The mood slider and every saved mood lie between 1 and 10. */
    ghost predicate Valid()
      reads this
    {
      && 1 <= mood <= 10
      && forall e :: e in entries ==> 1 <= e.mood <= 10
    }

    /** The initial state, before saved entries are loaded. */
    constructor ()
      ensures Valid()
      ensures currentEntry == "" && mood == 5 && entries == [] && !isAnalyzing
    {
      currentEntry := "";
      mood := 5;
      entries := [];
      isAnalyzing := false;
    }

    /** The mood slider, whose range is 1 to 10. */
    method SetMood(m: int)
      requires Valid()
      requires 1 <= m <= 10
      modifies this`mood
      ensures Valid() && mood == m
    {
      mood := m;
    }

    /** `saveEntry()`, with `now` standing for `Date.now()` and `today` for
        the current day, and the two-second delay collapsed. Blank text saves
        nothing. Otherwise the new entry, with its tags and insights, is put
        in front of the older entries, which keep their order; the text is
        cleared and the mood returns to 5. */
    method SaveEntry(now: nat, today: Day)
      requires Valid()
      modifies this`currentEntry, this`mood, this`entries, this`isAnalyzing
      ensures Valid()
      ensures IsBlank(old(currentEntry)) ==>
                entries == old(entries) && currentEntry == old(currentEntry) &&
                mood == old(mood) && isAnalyzing == old(isAnalyzing)
      ensures !IsBlank(old(currentEntry)) ==>
                entries == [NewEntry(now, today, old(currentEntry), old(mood))] + old(entries) &&
                currentEntry == "" && mood == 5 && !isAnalyzing
    {
      if IsBlank(currentEntry) {
        return;
      }
      isAnalyzing := true;
      var tags := ExtractTags(currentEntry);
      var insights := GenerateInsights(currentEntry, mood);
      var newEntry := Entry(Digits(now), today, currentEntry, mood, insights, tags);
      assert newEntry == NewEntry(now, today, currentEntry, mood);
      var updatedEntries := [newEntry] + entries;
      assert forall e :: e in updatedEntries ==> e == newEntry || e in entries;
      entries := updatedEntries;
      currentEntry := "";
      mood := 5;
      isAnalyzing := false;
    }
  }
}
