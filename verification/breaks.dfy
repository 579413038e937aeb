/** The break planner (components/breaks.tsx): a fixed list of break
    activities that can be filtered by category, and a timer started from
    an activity. */
module Breaks {
  import opened Wrappers
  import Seqs

  datatype Category = Creative | Physical | Mindful | Nature

  datatype Activity = Activity(id: string, title: string, description: string, duration: int, category: Category)

  /** The activities on offer, in the order they are listed. */
  const Activities: seq<Activity> := [
    Activity("1", "Mindful Breathing",
      "Take 5 minutes to focus on your breath. Inhale for 4 counts, hold for 4, exhale for 6.", 5, Mindful),
    Activity("2", "Nature Walk",
      "Step outside for a 15-minute walk. Notice the colors, sounds, and sensations around you.", 15, Nature),
    Activity("3", "Stretching Session",
      "Stretch your body for 10 minutes to release tension from sitting.", 10, Physical),
    Activity("4", "Doodle Break",
      "Grab a paper and pen. Doodle freely for 10 minutes without judgment.", 10, Creative),
    Activity("5", "Music Meditation",
      "Listen to a calming song with your eyes closed, focusing only on the sounds.", 5, Mindful),
    Activity("6", "Find Something Purple",
      "Go on a mini scavenger hunt to find 3 purple things in your environment.", 10, Nature),
    Activity("7", "One-Sentence Poem",
      "Write a single-sentence poem about how you're feeling right now.", 5, Creative),
    Activity("8", "Quick Yoga Flow",
      "Do a short yoga sequence: mountain pose, forward fold, plank, child's pose.", 10, Physical)
  ]

  /** `filteredActivities`: every activity, in order, when no category is
      chosen; otherwise the activities of that category. */
  function Filtered(acts: seq<Activity>, active: Option<Category>): (r: seq<Activity>)
    ensures active == None ==> r == acts
    ensures active.Some? ==> forall a :: a in r <==> a in acts && a.category == active.value
    ensures |r| <= |acts|
  {
    match active
    case None => acts
    case Some(c) => Seqs.Filter(acts, (a: Activity) => a.category == c)
  }

  /** Filtering keeps the listed order: the activities of a category drawn
      from a list's first part come before those drawn from its second. */
  lemma FilteredKeepsOrder(a: seq<Activity>, b: seq<Activity>, active: Option<Category>)
    ensures Filtered(a + b, active) == Filtered(a, active) + Filtered(b, active)
  {
    if active.Some? {
      Seqs.FilterAppend(a, b, (x: Activity) => x.category == active.value);
    }
  }

  /** Every activity falls under exactly one category, so the four filtered
      lists together are as long as the whole list. */
  lemma {:induction false} CategoriesPartition(acts: seq<Activity>)
    ensures |Filtered(acts, Some(Creative))| + |Filtered(acts, Some(Physical))| +
            |Filtered(acts, Some(Mindful))| + |Filtered(acts, Some(Nature))| == |acts|
  {
    if acts != [] {
      CategoriesPartition(acts[1..]);
    }
  }

  /** The number of times `c` occurs in `cats`. */
  function CountOf(cats: seq<Category>, c: Category): nat {
    if cats == [] then 0 else (if cats[0] == c then 1 else 0) + CountOf(cats[1..], c)
  }

  /** `acts` has the categories `cats`, position by position. */
  predicate HasCategories(acts: seq<Activity>, cats: seq<Category>) {
    |cats| == |acts| && forall i :: 0 <= i < |acts| ==> acts[i].category == cats[i]
  }

  /** The number of activities of category `c` depends only on the
      categories of the list. */
  lemma {:induction false} CountByCategories(acts: seq<Activity>, cats: seq<Category>, c: Category)
    requires HasCategories(acts, cats)
    ensures |Filtered(acts, Some(c))| == CountOf(cats, c)
  {
    if acts != [] {
      assert HasCategories(acts[1..], cats[1..]);
      CountByCategories(acts[1..], cats[1..], c);
    }
  }

  /** The categories of the listed activities, in order. */
  const ActivityCategories: seq<Category> :=
    [Mindful, Nature, Physical, Creative, Mindful, Nature, Creative, Physical]

  lemma CategoriesOfActivities()
    ensures HasCategories(Activities, ActivityCategories)
  {
  }

  /** Each category occurs twice among the listed categories. */
  lemma TwiceEach(c: Category)
    ensures CountOf(ActivityCategories, c) == 2
  {
    var s := ActivityCategories;
    assert s == [s[0]] + s[1..];
    assert CountOf(s, c) == (if s[0] == c then 1 else 0) + CountOf(s[1..], c);
  }

  /** The list offers exactly two activities of each category. */
  lemma TwoPerCategory(c: Category)
    ensures |Filtered(Activities, Some(c))| == 2
  {
    CategoriesOfActivities();
    CountByCategories(Activities, ActivityCategories, c);
    TwiceEach(c);
  }

  /** The break timer's state. */
  class BreakTimer {
    var activeCategory: Option<Category>
    var timerActive: bool
    var timerDuration: int
    var timeLeft: int

    /** Nothing ever counts the timer down, so the time left is always the
        full duration of the last break started. */
    ghost predicate Valid()
      reads this
    {
      timeLeft == timerDuration * 60
    }

    constructor ()
      ensures Valid()
      ensures activeCategory == None && !timerActive && timerDuration == 0 && timeLeft == 0
    {
      activeCategory := None;
      timerActive := false;
      timerDuration := 0;
      timeLeft := 0;
    }

    /** `startTimer(duration)`, called with the duration of an activity. */
    method StartTimer(duration: int)
      requires Valid()
      modifies this`timerDuration, this`timeLeft, this`timerActive
      ensures Valid()
      ensures timerDuration == duration && timeLeft == duration * 60 && timerActive
    {
      timerDuration := duration;
      timeLeft := duration * 60;
      timerActive := true;
    }

    /** The End Break button: the timer stops; nothing else changes. */
    method EndBreak()
      requires Valid()
      modifies this`timerActive
      ensures Valid()
      ensures !timerActive
    {
      timerActive := false;
    }

    /** The category buttons, `All` being `None`. */
    method SelectCategory(c: Option<Category>)
      requires Valid()
      modifies this`activeCategory
      ensures Valid()
      ensures activeCategory == c
    {
      activeCategory := c;
    }
  }
}
