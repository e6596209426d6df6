/**
 * The process-wide `taskManager` as an object whose fields the handlers
 * update in place. Each method is the store half of one handler case in
 * main.go; its postcondition ties the new fields to the table functions.
 */
module Store {
  import opened Wrappers
  import opened Tasks
  import opened TaskTable

  class TaskManager {
    var tasks: seq<Task>
    var nextId: int

    function Snapshot(): Table
      reads this
    {
      Table(tasks, nextId)
    }

    /** The ID invariants: every ID below `nextId`, no ID twice. */
    ghost predicate Valid()
      reads this
    {
      Consistent(Snapshot())
    }

    /** The package-level initialiser: no tasks and `NextID` 1. */
    constructor ()
      ensures tasks == [] && nextId == 1
      ensures Valid()
    {
      tasks := [];
      nextId := 1;
    }

    /** `initializeTasks`: install the seed slice and set `NextID` to 9. */
    method InitializeTasks(now: Time)
      modifies this
      ensures Snapshot() == Seed(now)
      ensures Valid() && AllStampsMatch(tasks)
    {
      tasks := SeedTasks(now);
      nextId := 9;
    }

    /** The `for i, task := range taskManager.Tasks` scan, stopping at the first matching ID. */
    method Find(id: int) returns (r: Option<nat>)
      ensures r == FirstIndex(tasks, id)
    {
      var i := 0;
      while i < |tasks|
        invariant 0 <= i <= |tasks|
        invariant forall k :: 0 <= k < i ==> tasks[k].id != id
      {
        if tasks[i].id == id {
          return Some(i);
        }
        i := i + 1;
      }
      return None;
    }

    /** Store a decoded body under the current counter, advance the counter and append. */
    method Create(body: Task, now: Time) returns (t: Task)
      modifies this
      ensures t == Created(body, old(nextId), now)
      ensures tasks == old(tasks) + [t] && nextId == old(nextId) + 1
      ensures old(Valid()) ==> Valid()
    {
      t := body.(id := nextId);
      t := t.(createdAt := now);
      nextId := nextId + 1;
      tasks := tasks + [t];
      if old(Valid()) {
        AppendKeepsConsistent(Table(old(tasks), old(nextId)), t);
      }
    }

    /** Flip `Completed` of the first task with this ID, then set or clear its stamp. */
    method Toggle(id: int, now: Time) returns (r: Option<Task>)
      modifies this
      ensures nextId == old(nextId)
      ensures match FirstIndex(old(tasks), id)
        case None => r == None && tasks == old(tasks)
        case Some(i) => r == Some(Toggled(old(tasks)[i], now)) && tasks == old(tasks)[i := r.value]
      ensures old(Valid()) ==> Valid()
    {
      var found := Find(id);
      match found
      case None =>
        r := None;
      case Some(i) =>
        tasks := tasks[i := tasks[i].(completed := !tasks[i].completed)];
        if tasks[i].completed {
          tasks := tasks[i := tasks[i].(completedAt := Some(now))];
        } else {
          tasks := tasks[i := tasks[i].(completedAt := None)];
        }
        r := Some(tasks[i]);
        if old(Valid()) {
          UpdateKeepsConsistent(Table(old(tasks), nextId), i, tasks[i]);
        }
    }

    /** Overwrite the first task with this ID by the body, under the path ID and the stored creation time. */
    method Replace(id: int, body: Task, now: Time) returns (r: Option<Task>)
      modifies this
      ensures nextId == old(nextId)
      ensures match FirstIndex(old(tasks), id)
        case None => r == None && tasks == old(tasks)
        case Some(i) => r == Some(Replaced(old(tasks)[i], body, id, now)) && tasks == old(tasks)[i := r.value]
      ensures old(Valid()) ==> Valid()
    {
      var found := Find(id);
      match found
      case None =>
        r := None;
      case Some(i) =>
        var task := tasks[i];
        var updated := body.(id := id);
        updated := updated.(createdAt := task.createdAt);
        if updated.completed && !task.completed {
          updated := updated.(completedAt := Some(now));
        } else if !updated.completed {
          updated := updated.(completedAt := None);
        } else {
          updated := updated.(completedAt := task.completedAt);
        }
        tasks := tasks[i := updated];
        r := Some(updated);
        if old(Valid()) {
          UpdateKeepsConsistent(Table(old(tasks), nextId), i, updated);
        }
    }

    /** Splice out the first task with this ID. */
    method Delete(id: int) returns (found: bool)
      modifies this
      ensures nextId == old(nextId)
      ensures match FirstIndex(old(tasks), id)
        case None => !found && tasks == old(tasks)
        case Some(i) => found && tasks == Removed(old(tasks), i)
      ensures old(Valid()) ==> Valid()
    {
      var at := Find(id);
      match at
      case None =>
        found := false;
      case Some(i) =>
        tasks := tasks[..i] + tasks[i + 1..];
        found := true;
        if old(Valid()) {
          RemoveKeepsConsistent(Table(old(tasks), nextId), i);
        }
    }
  }
}
