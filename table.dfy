/**
 * The task table (`TaskManager` in main.go) as a value: the ordered task
 * slice and the next-ID counter, the store invariants, the first-match lookup
 * every handler performs, and the seed contents.
 */
module TaskTable {
  import opened Wrappers
  import opened Tasks

  /** A snapshot of `TaskManager`: `Tasks` in insertion order and `NextID`. */
  datatype Table = Table(tasks: seq<Task>, nextId: int)

  /** Every stored ID is below the counter. */
  predicate IdsBelow(ts: seq<Task>, bound: int) {
    forall k :: 0 <= k < |ts| ==> ts[k].id < bound
  }

  /** No two stored tasks share an ID. */
  predicate IdsDistinct(ts: seq<Task>) {
    forall j, k :: 0 <= j < k < |ts| ==> ts[j].id != ts[k].id
  }

  /** The ID invariants of the store. */
  predicate Consistent(t: Table) {
    IdsBelow(t.tasks, t.nextId) && IdsDistinct(t.tasks)
  }

  /** The stamp invariant holds of every stored task. */
  predicate AllStampsMatch(ts: seq<Task>) {
    forall k :: 0 <= k < |ts| ==> StampMatches(ts[k])
  }

  predicate HasId(ts: seq<Task>, id: int) {
    exists k :: 0 <= k < |ts| && ts[k].id == id
  }

  /** The position where a `for i, task := range` scan for `id` stops, if any. */
  function FirstIndex(ts: seq<Task>, id: int): (r: Option<nat>)
    ensures r.Some? ==> r.value < |ts| && ts[r.value].id == id
    ensures r.Some? ==> forall k :: 0 <= k < r.value ==> ts[k].id != id
    ensures r.None? <==> !HasId(ts, id)
  {
    if |ts| == 0 then None
    else if ts[0].id == id then Some(0)
    else match FirstIndex(ts[1..], id)
      case None => None
      case Some(j) =>
        assert ts[1..][j] == ts[j + 1];
        Some(j + 1)
  }

  /** The slice `append(ts[:i], ts[i+1:]...)`. */
  function Removed(ts: seq<Task>, i: nat): (r: seq<Task>)
    requires i < |ts|
    ensures |r| == |ts| - 1
    ensures forall k :: 0 <= k < i ==> r[k] == ts[k]
    ensures forall k :: i <= k < |r| ==> r[k] == ts[k + 1]
  {
    ts[..i] + ts[i + 1..]
  }

  /** Lookup only depends on IDs, so rewriting a task under its own ID does not move any later lookup. */
  lemma {:induction false} FirstIndexAfterUpdate(ts: seq<Task>, i: nat, u: Task, id: int)
    requires i < |ts| && u.id == ts[i].id
    ensures FirstIndex(ts[i := u], id) == FirstIndex(ts, id)
  {
    if |ts| > 0 && ts[0].id != id && i > 0 {
      assert ts[i := u][1..] == ts[1..][i - 1 := u];
      FirstIndexAfterUpdate(ts[1..], i - 1, u, id);
    }
  }

  /** Appending a task under the counter, then advancing it, keeps the ID invariants; the new ID is fresh. */
  lemma AppendKeepsConsistent(t: Table, u: Task)
    requires Consistent(t) && u.id == t.nextId
    ensures Consistent(Table(t.tasks + [u], t.nextId + 1))
    ensures !HasId(t.tasks, u.id)
    ensures forall k :: 0 <= k < |t.tasks| ==> t.tasks[k].id < u.id
  {
  }

  /** Rewriting a task in place under its own ID keeps the ID invariants. */
  lemma UpdateKeepsConsistent(t: Table, i: nat, u: Task)
    requires Consistent(t) && i < |t.tasks| && u.id == t.tasks[i].id
    ensures Consistent(Table(t.tasks[i := u], t.nextId))
  {
  }

  /** Splicing out entry `i` keeps the ID invariants, and its ID is no longer stored. */
  lemma RemoveKeepsConsistent(t: Table, i: nat)
    requires Consistent(t) && i < |t.tasks|
    ensures Consistent(Table(Removed(t.tasks, i), t.nextId))
    ensures !HasId(Removed(t.tasks, i), t.tasks[i].id)
  {
    var r := Removed(t.tasks, i);
    forall j, k | 0 <= j < k < |r| ensures r[j].id != r[k].id {
      var j' := if j < i then j else j + 1;
      var k' := if k < i then k else k + 1;
      assert r[j] == t.tasks[j'] && r[k] == t.tasks[k'];
    }
    forall k | 0 <= k < |r| ensures r[k].id != t.tasks[i].id {
      assert r[k] == t.tasks[if k < i then k else k + 1];
    }
  }

  lemma UpdateKeepsStamps(ts: seq<Task>, i: nat, u: Task)
    requires AllStampsMatch(ts) && i < |ts| && StampMatches(u)
    ensures AllStampsMatch(ts[i := u])
  {
  }

  lemma RemoveKeepsStamps(ts: seq<Task>, i: nat)
    requires AllStampsMatch(ts) && i < |ts|
    ensures AllStampsMatch(Removed(ts, i))
  {
  }

  lemma AppendKeepsStamps(ts: seq<Task>, u: Task)
    requires AllStampsMatch(ts)
    ensures AllStampsMatch(ts + [u]) <==> StampMatches(u)
  {
    assert (ts + [u])[|ts|] == u;
  }

  function SeedTask(id: int, title: string, kind: string, owner: string, priority: string,
                    notes: string, now: Time): Task
  {
    Task(id, title, kind, owner, priority, false, notes, now, None)
  }

  /** The contents `initializeTasks` installs: eight open tasks with IDs 1 to 8, and `NextID` 9. */
  function Seed(now: Time): (t: Table)
    ensures |t.tasks| == 8 && t.nextId == 9
    ensures forall k :: 0 <= k < 8 ==> t.tasks[k].id == k + 1 && !t.tasks[k].completed
    ensures Consistent(t) && AllStampsMatch(t.tasks)
  {
    var ts := SeedTasks(now);
    assert forall k :: 0 <= k < |ts| ==> ts[k].id == k + 1 && !ts[k].completed && ts[k].completedAt == None by {
      SeedTaskAt(now);
    }
    Table(ts, 9)
  }

  lemma SeedTaskAt(now: Time)
    ensures |SeedTasks(now)| == 8
    ensures forall k :: 0 <= k < 8 ==> SeedTasks(now)[k].id == k + 1 && !SeedTasks(now)[k].completed
                                       && SeedTasks(now)[k].completedAt == None
  {
    var ts := SeedTasks(now);
    assert ts[0].id == 1 && ts[1].id == 2 && ts[2].id == 3 && ts[3].id == 4;
    assert ts[4].id == 5 && ts[5].id == 6 && ts[6].id == 7 && ts[7].id == 8;
  }

  function SeedTasks(now: Time): seq<Task> {
    var immediate := "Immediate Tasks (24-48 hours)";
    var process := "Process Improvement Tasks (1-2 weeks)";
    [
      SeedTask(1, "Schedule follow-up meeting - Tomorrow at 7:30 AM", immediate,
               "Tariro & Endri", "High", "Endri to create recurring weekly meeting", now),
      SeedTask(2, "Audit current Calendly setup", immediate,
               "Tariro & Endri", "High", "Review all existing schedules, clones, and configurations", now),
      SeedTask(3, "Complete resident list cleanup", immediate,
               "Michael & Tariro", "High", "Verify all current vs. former residents in Zoho", now),
      SeedTask(4, "Implement SMS capability", immediate,
               "Michael & Technical Team", "Medium", "Deploy text messaging API integration in Zoho within one week", now),
      SeedTask(5, "Establish Calendly change procedures", process,
               "Liz, Tariro, Endri", "Medium", "Define who updates what and when", now),
      SeedTask(6, "Fix recurring meeting setup", process,
               "Endri", "Medium", "Ensure Wednesday 7:30 AM meetings auto-schedule properly", now),
      SeedTask(7, "Track residency completion dates", "Ongoing Management Tasks",
               "Liz", "Low", "Monitor approaching end dates for proper offboarding", now),
      SeedTask(8, "Establish clear handoff procedures", "Communication & Coordination",
               "All Team", "Medium", "Between Liz and Tariro for scheduling", now)
    ]
  }
}
