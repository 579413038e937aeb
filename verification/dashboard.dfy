/** The dashboard (components/dashboard.tsx): the day's task checklist, a
    water counter and a greeting chosen by the hour. */
module Dashboard {
  import Seqs

  datatype Task = Task(id: int, text: string, completed: bool, category: string)

  /** The checklist the dashboard starts with, nothing done yet. */
  function SeedTasks(): (ts: seq<Task>)
    ensures |ts| == 6
    ensures forall i :: 0 <= i < |ts| ==> !ts[i].completed && ts[i].id == i + 1
  {
    [ Task(1, "Morning Surya Namaskar", false, "exercise"),
      Task(2, "Read 15 pages", false, "reading"),
      Task(3, "Study session - 2 hours", false, "study"),
      Task(4, "Nature walk", false, "exercise"),
      Task(5, "Journal writing", false, "personal"),
      Task(6, "Iron-rich meal", false, "health") ]
  }

  /** `dailyTasks.map(task => task.id === id ? {...task, completed: !task.completed} : task)`:
      the tasks with that id change state, and nothing else changes. */
  function ToggleTasks(ts: seq<Task>, id: int): (r: seq<Task>)
    ensures |r| == |ts|
    ensures forall i :: 0 <= i < |ts| ==>
              r[i].id == ts[i].id && r[i].text == ts[i].text && r[i].category == ts[i].category
    ensures forall i :: 0 <= i < |ts| ==>
              r[i].completed == (if ts[i].id == id then !ts[i].completed else ts[i].completed)
  {
    Seqs.MapWhere(ts, (t: Task) => t.id == id, (t: Task) => t.(completed := !t.completed))
  }

  /** Toggling the same id twice gives back the original list. */
  lemma ToggleTwice(ts: seq<Task>, id: int)
    ensures ToggleTasks(ToggleTasks(ts, id), id) == ts
  {
    var r := ToggleTasks(ToggleTasks(ts, id), id);
    assert forall i :: 0 <= i < |ts| ==> r[i] == ts[i];
  }

  /** An id no task has changes nothing. */
  lemma ToggleUnknownId(ts: seq<Task>, id: int)
    requires forall i :: 0 <= i < |ts| ==> ts[i].id != id
    ensures ToggleTasks(ts, id) == ts
  {
    assert forall i :: 0 <= i < |ts| ==> ToggleTasks(ts, id)[i] == ts[i];
  }

  predicate IsDone(t: Task) {
    t.completed
  }

  /** `dailyTasks.filter(task => task.completed).length`. */
  function CompletedCount(ts: seq<Task>): (n: nat)
    ensures n <= |ts|
    ensures n == |ts| <==> forall i :: 0 <= i < |ts| ==> ts[i].completed
  {
    Seqs.Count(ts, IsDone)
  }

  /** Toggling the one task with a given id moves the completed count by
      one: down when that task was done, up when it was not. */
  lemma {:induction false} ToggleMovesCountByOne(ts: seq<Task>, id: int, k: nat)
    requires k < |ts| && ts[k].id == id
    requires forall i :: 0 <= i < |ts| && i != k ==> ts[i].id != id
    ensures CompletedCount(ToggleTasks(ts, id)) ==
              CompletedCount(ts) + (if ts[k].completed then -1 else 1)
  {
    var r := ToggleTasks(ts, id);
    var rest := ToggleTasks(ts[1..], id);
    assert r[1..] == rest by {
      assert forall i :: 0 <= i < |ts| - 1 ==> r[1..][i] == rest[i];
    }
    Seqs.CountCons(ts, IsDone);
    Seqs.CountCons(r, IsDone);
    assert CompletedCount(r) == (if r[0].completed then 1 else 0) + CompletedCount(rest);
    assert CompletedCount(ts) == (if ts[0].completed then 1 else 0) + CompletedCount(ts[1..]);
    if k == 0 {
      ToggleUnknownId(ts[1..], id);
      assert r[0].completed == !ts[0].completed;
    } else {
      ToggleMovesCountByOne(ts[1..], id, k - 1);
      assert r[0].completed == ts[0].completed;
    }
  }

  /** The progress message: the congratulation exactly when the list is
      non-empty and every task is done (the percentage is then exactly
      100), encouragement otherwise. */
  function ProgressMessage(ts: seq<Task>): (m: string)
    ensures m == "Amazing! You've completed all your goals!" <==>
              ts != [] && forall i :: 0 <= i < |ts| ==> ts[i].completed
    ensures m == "Amazing! You've completed all your goals!" || m == "Keep going! You're doing great!"
  {
    if |ts| > 0 && CompletedCount(ts) == |ts| then "Amazing! You've completed all your goals!"
    else "Keep going! You're doing great!"
  }

  /** The greeting for the hour of the day. */
  function Greeting(hour: int): (g: string)
    ensures g == "Good Morning" <==> hour < 12
    ensures g == "Good Afternoon" <==> 12 <= hour < 17
    ensures g == "Good Evening" <==> hour >= 17
  {
    if hour < 12 then "Good Morning"
    else if hour < 17 then "Good Afternoon"
    else "Good Evening"
  }

  /** The thoughts one of which is picked for the day. */
  const Thoughts: seq<string> := [
    "Every small step forward is progress worth celebrating.",
    "Your health is your wealth. Nourish your body with love.",
    "Reading opens doors to infinite possibilities.",
    "Consistency in small things leads to extraordinary results.",
    "Take time to breathe. You are exactly where you need to be.",
    "Your iron levels are improving with every healthy choice you make."
  ]

  /** The `Dashboard` component's state. */
  class DashboardState {
    var greeting: string
    var dailyTasks: seq<Task>
    var waterIntake: int
    var dailyThought: string

    ghost predicate Valid()
      reads this
    {
      waterIntake >= 0
    }

    constructor ()
      ensures Valid()
      ensures greeting == "" && dailyTasks == SeedTasks() && waterIntake == 0 && dailyThought == ""
    {
      greeting := "";
      dailyTasks := SeedTasks();
      waterIntake := 0;
      dailyThought := "";
    }

    /** The mount effect, apart from loading saved data: the greeting for
        `hour` and the thought at `pick`, which stands for the random
        choice. */
    method Mount(hour: int, pick: nat)
      requires Valid()
      requires pick < |Thoughts|
      modifies this`greeting, this`dailyThought
      ensures Valid()
      ensures greeting == Greeting(hour) && dailyThought == Thoughts[pick]
    {
      if hour < 12 {
        greeting := "Good Morning";
      } else if hour < 17 {
        greeting := "Good Afternoon";
      } else {
        greeting := "Good Evening";
      }
      dailyThought := Thoughts[pick];
    }

    /** `toggleTask(id)`. */
    method ToggleTask(id: int)
      requires Valid()
      modifies this`dailyTasks
      ensures Valid()
      ensures dailyTasks == ToggleTasks(old(dailyTasks), id)
    {
      dailyTasks := ToggleTasks(dailyTasks, id);
    }

    /** `addWater()`: one 250 ml glass more. */
    method AddWater()
      requires Valid()
      modifies this`waterIntake
      ensures Valid()
      ensures waterIntake == old(waterIntake) + 250
    {
      waterIntake := waterIntake + 250;
    }
  }
}
