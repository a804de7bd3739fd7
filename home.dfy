/**
  The dashboard of src/pages/Home.tsx: its to-do list (toggle, add, delete,
  edit), the pending-task count, and the two feeds a five-second timer
  refreshes, each keeping its five newest entries. The random picks of the
  timer, the clock and the answer to `prompt` are parameters.
 */
module Home {
  import opened Common
  import Text
  import Lists

  datatype Task = Task(id: int, text: string, done: bool)

  /** The page's three initial tasks. */
  function InitialTasks(): (ts: seq<Task>)
    ensures |ts| == 3 && Pending(ts) == 2
  {
    [ Task(1, "Follow up with lead #101", false),
      Task(2, "Review monthly sales report", false),
      Task(3, "Prepare client presentation", true) ]
  }

  /** The suggestions the timer picks from. */
  const Suggestions: seq<string> := [
    "Contact high-value lead #202",
    "Prepare proposal for client X",
    "Follow up on overdue invoices",
    "Schedule team meeting",
    "Update CRM database",
    "Send quarterly report",
    "Review customer feedback",
    "Plan marketing campaign"]

  /** The notification texts the timer picks from. */
  const NotificationTemplates: seq<string> := [
    "New lead assigned",
    "Meeting reminder",
    "Task completed",
    "Revenue milestone reached",
    "Customer feedback received",
    "System update available"]

  /** The number of entries a feed keeps. */
  const FeedLimit: nat := 5

  // ------------------------------------------------------------------ tasks

  predicate IsPending(t: Task) {
    !t.done
  }

  /** The "Tasks Pending" card: `tasks.filter(t => !t.done).length`. */
  function Pending(tasks: seq<Task>): (n: nat)
    ensures n == Lists.Count(tasks, IsPending)
    ensures n <= |tasks|
  {
    Lists.FilterLength(tasks, IsPending);
    |Lists.Filter(tasks, IsPending)|
  }

  /** The map of `toggleTask`. */
  function ToggleWhere(tasks: seq<Task>, id: int): (r: seq<Task>)
    ensures |r| == |tasks|
    ensures forall i :: 0 <= i < |tasks| && tasks[i].id != id ==> r[i] == tasks[i]
    ensures forall i :: 0 <= i < |tasks| && tasks[i].id == id ==> r[i] == tasks[i].(done := !tasks[i].done)
  {
    seq(|tasks|, i requires 0 <= i < |tasks| =>
      if tasks[i].id == id then tasks[i].(done := !tasks[i].done) else tasks[i])
  }

  /** Toggling is an involution. */
  lemma ToggleTwice(tasks: seq<Task>, id: int)
    ensures ToggleWhere(ToggleWhere(tasks, id), id) == tasks
  {
    var twice := ToggleWhere(ToggleWhere(tasks, id), id);
    assert forall i :: 0 <= i < |tasks| ==> twice[i] == tasks[i];
  }

  /** When exactly one task has the id, toggling it moves the pending count
      by one: down when that task was pending, up when it was done. */
  lemma TogglePendingCount(tasks: seq<Task>, id: int, k: nat)
    requires k < |tasks| && tasks[k].id == id
    requires forall i :: 0 <= i < |tasks| && i != k ==> tasks[i].id != id
    ensures Pending(ToggleWhere(tasks, id)) == if tasks[k].done then Pending(tasks) + 1 else Pending(tasks) - 1
  {
    assert ToggleWhere(tasks, id) == tasks[k := tasks[k].(done := !tasks[k].done)];
    Lists.CountUpdate(tasks, k, tasks[k].(done := !tasks[k].done), IsPending);
  }

  /** The filter of `deleteTask`. */
  function WithoutTask(tasks: seq<Task>, id: int): (r: seq<Task>)
    ensures Lists.IsSubsequence(r, tasks)
    ensures forall i :: 0 <= i < |r| ==> r[i].id != id
    ensures forall i :: 0 <= i < |tasks| && tasks[i].id != id ==> tasks[i] in r
    ensures |r| == Lists.Count(tasks, (t: Task) => t.id != id)
  {
    Lists.FilterLength(tasks, (t: Task) => t.id != id);
    Lists.Filter(tasks, (t: Task) => t.id != id)
  }

  /** Deleting removes exactly those tasks with the id. */
  lemma DeleteRemovesExactly(tasks: seq<Task>, id: int, t: Task)
    ensures t in WithoutTask(tasks, id) <==> t in tasks && t.id != id
  {
    Lists.FilterMembership(tasks, (t: Task) => t.id != id, t);
  }

  /** The map of `editTask`: only the text of the matching tasks changes. */
  function RetextWhere(tasks: seq<Task>, id: int, text: string): (r: seq<Task>)
    ensures |r| == |tasks|
    ensures forall i :: 0 <= i < |tasks| ==> r[i].id == tasks[i].id && r[i].done == tasks[i].done
    ensures forall i :: 0 <= i < |tasks| && tasks[i].id != id ==> r[i] == tasks[i]
    ensures forall i :: 0 <= i < |tasks| && tasks[i].id == id ==> r[i].text == text
  {
    seq(|tasks|, i requires 0 <= i < |tasks| =>
      if tasks[i].id == id then tasks[i].(text := text) else tasks[i])
  }

  // ------------------------------------------------------------------ feeds

  /** `[entry, ...prev.slice(0, 4)]`. */
  function Push(feed: seq<string>, entry: string): (r: seq<string>)
    ensures |r| == if |feed| < FeedLimit then |feed| + 1 else FeedLimit
    ensures r[0] == entry
    ensures forall i :: 1 <= i < |r| ==> r[i] == feed[i - 1]
  {
    [entry] + feed[..if |feed| < FeedLimit - 1 then |feed| else FeedLimit - 1]
  }

  /** The feed after pushing `entries` one tick at a time, oldest first. */
  function PushAll(feed: seq<string>, entries: seq<string>): seq<string>
    decreases |entries|
  {
    if entries == [] then feed else Push(PushAll(feed, entries[..|entries| - 1]), entries[|entries| - 1])
  }

  /** After any run of ticks a feed that started within the limit holds at
      most five entries, newest first: position i holds the entry pushed i
      ticks before the last one. */
  lemma {:induction false} PushAllNewestFirst(feed: seq<string>, entries: seq<string>)
    requires |feed| <= FeedLimit
    ensures var r := PushAll(feed, entries);
      && |r| <= FeedLimit
      && |r| == (if |feed| + |entries| < FeedLimit then |feed| + |entries| else FeedLimit)
      && forall i :: 0 <= i < |r| && i < |entries| ==> r[i] == entries[|entries| - 1 - i]
    decreases |entries|
  {
    if entries != [] {
      PushAllNewestFirst(feed, entries[..|entries| - 1]);
    }
  }

  /** `${template} - ${time}`. */
  function NotificationText(template: string, time: string): (r: string)
    ensures |r| == |template| + 3 + |time|
    ensures r[..|template|] == template && r[|template| + 3..] == time
  {
    template + " - " + time
  }

  // ------------------------------------------------------------------ state

  /** The page's state. */
  class Dashboard {
    var tasks: seq<Task>
    var newTaskText: string
    var aiSuggestions: seq<string>
    var notifications: seq<string>

    /** Both feeds stay within the limit. */
    ghost predicate Valid()
      reads this
    {
      |aiSuggestions| <= FeedLimit && |notifications| <= FeedLimit
    }

    constructor ()
      ensures Valid() && tasks == InitialTasks() && newTaskText == ""
      ensures aiSuggestions == ["Contact high-value lead #202", "Prepare proposal for client X"]
      ensures notifications == ["New lead assigned to you", "Meeting scheduled for 3 PM"]
    {
      tasks := InitialTasks();
      newTaskText := "";
      aiSuggestions := ["Contact high-value lead #202", "Prepare proposal for client X"];
      notifications := ["New lead assigned to you", "Meeting scheduled for 3 PM"];
    }

    /** The new-task input's onChange. */
    method SetNewTaskText(text: string)
      modifies this`newTaskText
      ensures newTaskText == text
    {
      newTaskText := text;
    }

    /** `toggleTask(id)`. */
    method ToggleTask(id: int)
      modifies this`tasks
      ensures tasks == ToggleWhere(old(tasks), id)
    {
      tasks := ToggleWhere(tasks, id);
    }

    /** `addTask`: text that trims to nothing is ignored; otherwise an open
        task with the untrimmed text (id `now`) goes first and the input is
        cleared. */
    method AddTask(now: int)
      modifies this`tasks, this`newTaskText
      ensures Text.Trim(old(newTaskText)) == "" ==> tasks == old(tasks) && newTaskText == old(newTaskText)
      ensures Text.Trim(old(newTaskText)) != "" ==>
        tasks == [Task(now, old(newTaskText), false)] + old(tasks) && newTaskText == ""
    {
      if Text.Trim(newTaskText) != "" {
        tasks := [Task(now, newTaskText, false)] + tasks;
        newTaskText := "";
      }
    }

    /** `deleteTask(id)`. */
    method DeleteTask(id: int)
      modifies this`tasks
      ensures tasks == WithoutTask(old(tasks), id)
    {
      tasks := WithoutTask(tasks, id);
    }

    /** `editTask(id)` given what `prompt` answered: None when cancelled. A
        cancelled or empty answer changes nothing. */
    method EditTask(id: int, answer: Option<string>)
      modifies this`tasks
      ensures answer == None || answer == Some("") ==> tasks == old(tasks)
      ensures answer.Some? && answer.value != "" ==> tasks == RetextWhere(old(tasks), id, answer.value)
    {
      if answer.Some? && answer.value != "" {
        tasks := RetextWhere(tasks, id, answer.value);
      }
    }

    /** One timer tick: the picked suggestion and the picked notification
        text, stamped with the local time, go first in their feeds. */
    method Tick(suggestion: nat, template: nat, time: string)
      requires Valid()
      requires suggestion < |Suggestions| && template < |NotificationTemplates|
      modifies this`aiSuggestions, this`notifications
      ensures Valid()
      ensures aiSuggestions == Push(old(aiSuggestions), Suggestions[suggestion])
      ensures notifications == Push(old(notifications), NotificationText(NotificationTemplates[template], time))
    {
      aiSuggestions := Push(aiSuggestions, Suggestions[suggestion]);
      notifications := Push(notifications, NotificationText(NotificationTemplates[template], time));
    }
  }
}
