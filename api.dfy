/**
 * The two JSON handlers of main.go. `ServeCollection` and `ServeItem` say, as
 * functions of the table before the request, what the table is afterwards
 * and what the response is; `TasksHandler` and `TaskHandler` do the same work
 * on the shared `TaskManager` object and are proved to agree with them.
 */
module Api {
  import opened Wrappers
  import opened Tasks
  import opened TaskTable
  import opened Routing
  import opened Store

  /** The request body as the JSON decoder leaves it: a task, or the decoder's error text. */
  datatype Body = Parsed(task: Task) | Unparseable(reason: string)

  /** What the handler writes after the status line. */
  datatype Payload =
    | Empty
    | OneTask(task: Task)
    | TaskList(tasks: seq<Task>)
    | ErrorText(text: string)

  datatype Response = Response(status: int, payload: Payload)

  /** The table after a request, and the response to it. */
  datatype Step = Step(after: Table, response: Response)

  const OK := 200
  const NoContent := 204
  const BadRequest := 400
  const NotFound := 404

  function TaskNotFound(): Response {
    Response(NotFound, ErrorText("Task not found"))
  }

  /** `tasksHandler`: list on GET, create on POST, and write nothing for any other method. */
  function ServeCollection(t: Table, verb: string, body: Body, now: Time): (st: Step)
    ensures t.tasks <= st.after.tasks && |st.after.tasks| <= |t.tasks| + 1
    ensures st.after.nextId == t.nextId + |st.after.tasks| - |t.tasks|
  {
    if verb == "GET" then
      Step(t, Response(OK, TaskList(t.tasks)))
    else if verb == "POST" then
      match body
      case Unparseable(reason) => Step(t, Response(BadRequest, ErrorText(reason)))
      case Parsed(b) =>
        var created := Created(b, t.nextId, now);
        Step(Table(t.tasks + [created], t.nextId + 1), Response(OK, OneTask(created)))
    else
      Step(t, Response(OK, Empty))
  }

  /** `taskHandler`: classify the path, then toggle on POST, replace on PUT, delete on DELETE. */
  function ServeItem(t: Table, path: string, verb: string, body: Body, now: Time): (st: Step)
    requires IsItemPath(path)
    ensures st.after.nextId == t.nextId
    ensures |st.after.tasks| == |t.tasks| || |st.after.tasks| == |t.tasks| - 1
  {
    match Classify(path)
    case MissingId => Step(t, Response(BadRequest, ErrorText("Task ID required")))
    case InvalidId => Step(t, Response(BadRequest, ErrorText("Invalid task ID")))
    case ToggleRoute(id) =>
      if verb != "POST" then Step(t, Response(OK, Empty))
      else
        (match FirstIndex(t.tasks, id)
         case None => Step(t, TaskNotFound())
         case Some(i) =>
           var toggled := Toggled(t.tasks[i], now);
           Step(t.(tasks := t.tasks[i := toggled]), Response(OK, OneTask(toggled))))
    case ItemRoute(id) =>
      if verb == "PUT" then
        (match body
         case Unparseable(reason) => Step(t, Response(BadRequest, ErrorText(reason)))
         case Parsed(b) =>
           (match FirstIndex(t.tasks, id)
            case None => Step(t, TaskNotFound())
            case Some(i) =>
              var replaced := Replaced(t.tasks[i], b, id, now);
              Step(t.(tasks := t.tasks[i := replaced]), Response(OK, OneTask(replaced)))))
      else if verb == "DELETE" then
        (match FirstIndex(t.tasks, id)
         case None => Step(t, TaskNotFound())
         case Some(i) => Step(t.(tasks := Removed(t.tasks, i)), Response(NoContent, Empty)))
      else
        Step(t, Response(OK, Empty))
  }

  // ---------------------------------------------------------------------------
  // Properties of the handlers

  /** Every collection request keeps the ID invariants; a create keeps the stamp invariant iff its body has it. */
  lemma ServeCollectionInvariants(t: Table, verb: string, body: Body, now: Time)
    ensures Consistent(t) ==> Consistent(ServeCollection(t, verb, body, now).after)
    ensures AllStampsMatch(t.tasks) && (verb == "POST" && body.Parsed? ==> StampMatches(body.task))
            ==> AllStampsMatch(ServeCollection(t, verb, body, now).after.tasks)
  {
    if verb == "POST" && body.Parsed? {
      var created := Created(body.task, t.nextId, now);
      if Consistent(t) {
        AppendKeepsConsistent(t, created);
      }
      if AllStampsMatch(t.tasks) {
        AppendKeepsStamps(t.tasks, created);
      }
    }
  }

  /** Every item request keeps the ID invariants and the stamp invariant. */
  lemma ServeItemInvariants(t: Table, path: string, verb: string, body: Body, now: Time)
    requires IsItemPath(path)
    ensures Consistent(t) ==> Consistent(ServeItem(t, path, verb, body, now).after)
    ensures AllStampsMatch(t.tasks) ==> AllStampsMatch(ServeItem(t, path, verb, body, now).after.tasks)
  {
    match Classify(path)
    case MissingId =>
    case InvalidId =>
    case ToggleRoute(id) =>
      if verb == "POST" && FirstIndex(t.tasks, id).Some? {
        var i := FirstIndex(t.tasks, id).value;
        if Consistent(t) {
          UpdateKeepsConsistent(t, i, Toggled(t.tasks[i], now));
        }
        if AllStampsMatch(t.tasks) {
          UpdateKeepsStamps(t.tasks, i, Toggled(t.tasks[i], now));
        }
      }
    case ItemRoute(id) =>
      if verb == "PUT" && body.Parsed? && FirstIndex(t.tasks, id).Some? {
        var i := FirstIndex(t.tasks, id).value;
        var replaced := Replaced(t.tasks[i], body.task, id, now);
        if Consistent(t) {
          UpdateKeepsConsistent(t, i, replaced);
        }
        if AllStampsMatch(t.tasks) {
          UpdateKeepsStamps(t.tasks, i, replaced);
        }
      } else if verb == "DELETE" && FirstIndex(t.tasks, id).Some? {
        var i := FirstIndex(t.tasks, id).value;
        if Consistent(t) {
          RemoveKeepsConsistent(t, i);
        }
        if AllStampsMatch(t.tasks) {
          RemoveKeepsStamps(t.tasks, i);
        }
      }
  }

  /** A refused or unhandled collection request leaves the table as it was. */
  lemma ServeCollectionFailuresChangeNothing(t: Table, verb: string, body: Body, now: Time)
    ensures var st := ServeCollection(t, verb, body, now);
      st.response.status == BadRequest || st.response == Response(OK, Empty) || verb == "GET"
      ==> st.after == t
    ensures ServeCollection(t, verb, body, now).after != t <==> verb == "POST" && body.Parsed?
  {
  }

  /** A refused, not-found or unhandled item request leaves the table as it was. */
  lemma ServeItemFailuresChangeNothing(t: Table, path: string, verb: string, body: Body, now: Time)
    requires IsItemPath(path)
    ensures var st := ServeItem(t, path, verb, body, now);
      st.response.status == BadRequest || st.response.status == NotFound || st.response == Response(OK, Empty)
      ==> st.after == t
  {
  }

  /** The item handler answers 404 exactly when it reaches a store operation and no task has the ID. */
  lemma NotFoundIff(t: Table, path: string, verb: string, body: Body, now: Time)
    requires IsItemPath(path)
    ensures ServeItem(t, path, verb, body, now).response.status == NotFound <==>
      match Classify(path)
      case ToggleRoute(id) => verb == "POST" && !HasId(t.tasks, id)
      case ItemRoute(id) => (verb == "DELETE" || (verb == "PUT" && body.Parsed?)) && !HasId(t.tasks, id)
      case _ => false
  {
  }

  /** The item handler answers 400 exactly for a missing or non-integer ID, or an undecodable PUT body. */
  lemma BadRequestIff(t: Table, path: string, verb: string, body: Body, now: Time)
    requires IsItemPath(path)
    ensures ServeItem(t, path, verb, body, now).response.status == BadRequest <==>
      match Classify(path)
      case MissingId => true
      case InvalidId => true
      case ToggleRoute(_) => false
      case ItemRoute(_) => verb == "PUT" && body.Unparseable?
  {
  }

  /** A create stores the body under the old counter, at the end, above every earlier ID. */
  lemma CreateAppends(t: Table, b: Task, now: Time)
    requires Consistent(t)
    ensures var st := ServeCollection(t, "POST", Parsed(b), now);
      && st.response.payload.OneTask?
      && var created := st.response.payload.task;
      && created.id == t.nextId && created.createdAt == now
      && created.completed == b.completed && created.completedAt == b.completedAt
      && st.after == Table(t.tasks + [created], t.nextId + 1)
      && (forall k :: 0 <= k < |t.tasks| ==> t.tasks[k].id < created.id)
  {
  }

  /**
   * Toggling the same ID twice restores every `completed` flag, leaves every entry
   * but the first match exactly as it was, and changes nothing else but stamps.
   */
  lemma ToggleTwice(t: Table, id: int, body: Body, first: Time, second: Time)
    ensures var once := ServeItem(t, TogglePath(id), "POST", body, first).after;
      var twice := ServeItem(once, TogglePath(id), "POST", body, second).after;
      && |twice.tasks| == |t.tasks| && twice.nextId == t.nextId
      && (forall k :: 0 <= k < |t.tasks| ==> twice.tasks[k].completed == t.tasks[k].completed)
      && (forall k :: 0 <= k < |t.tasks| && !t.tasks[k].completed && StampMatches(t.tasks[k]) ==>
            twice.tasks[k] == t.tasks[k])
      && (forall k :: 0 <= k < |t.tasks| && FirstIndex(t.tasks, id) != Some(k) ==> twice.tasks[k] == t.tasks[k])
  {
    ClassifyTogglePath(id);
    var once := ServeItem(t, TogglePath(id), "POST", body, first).after;
    match FirstIndex(t.tasks, id)
    case None =>
    case Some(i) =>
      FirstIndexAfterUpdate(t.tasks, i, Toggled(t.tasks[i], first), id);
      ToggledTwice(t.tasks[i], first, second);
  }

  /** A PUT on a stored ID rewrites that entry in place, under the same ID and creation time. */
  lemma ReplaceInPlace(t: Table, id: int, b: Task, now: Time)
    requires HasId(t.tasks, id)
    ensures var st := ServeItem(t, IdPath(id), "PUT", Parsed(b), now);
      var i := FirstIndex(t.tasks, id).value;
      && st.response == Response(OK, OneTask(st.after.tasks[i]))
      && |st.after.tasks| == |t.tasks| && st.after.nextId == t.nextId
      && st.after.tasks[i] == Replaced(t.tasks[i], b, id, now)
      && st.after.tasks[i].id == t.tasks[i].id && st.after.tasks[i].createdAt == t.tasks[i].createdAt
      && (forall k :: 0 <= k < |t.tasks| && k != i ==> st.after.tasks[k] == t.tasks[k])
  {
    ClassifyIdPath(id);
  }

  /** A DELETE on a stored ID removes its one entry; a second DELETE on it is a 404. */
  lemma DeleteOnce(t: Table, id: int, body: Body, now: Time)
    requires Consistent(t) && HasId(t.tasks, id)
    ensures var st := ServeItem(t, IdPath(id), "DELETE", body, now);
      && st.response == Response(NoContent, Empty)
      && st.after == Table(Removed(t.tasks, FirstIndex(t.tasks, id).value), t.nextId)
      && !HasId(st.after.tasks, id)
      && ServeItem(st.after, IdPath(id), "DELETE", body, now) == Step(st.after, TaskNotFound())
  {
    ClassifyIdPath(id);
    RemoveKeepsConsistent(t, FirstIndex(t.tasks, id).value);
  }

  /** On the seeded store, toggling task 1 completes it with a stamp, and toggling it again restores the seed. */
  lemma SeededToggle(t0: Time, t1: Time, t2: Time, noBody: Body)
    ensures var path := "/api/tasks/1/toggle";
      var st1 := ServeItem(Seed(t0), path, "POST", noBody, t1);
      var st2 := ServeItem(st1.after, path, "POST", noBody, t2);
      && st1.response.status == OK && st1.response.payload.OneTask?
      && st1.response.payload.task.completed && st1.response.payload.task.completedAt == Some(t1)
      && st2.response.status == OK && st2.response.payload.OneTask?
      && !st2.response.payload.task.completed && st2.response.payload.task.completedAt == None
      && st2.after == Seed(t0)
  {
    var s0 := Seed(t0);
    assert TogglePath(1) == "/api/tasks/1/toggle";
    ClassifyTogglePath(1);
    SeedTaskAt(t0);
    ToggledTwice(s0.tasks[0], t1, t2);
    FirstIndexAfterUpdate(s0.tasks, 0, Toggled(s0.tasks[0], t1), 1);
  }

  /**
   * On the seeded store, a created task gets ID 9; a PUT marking it completed
   * stamps it and keeps its ID and creation time; a DELETE removes it, and a
   * second DELETE is a 404.
   */
  lemma SeededCreateReplaceDelete(t0: Time, t3: Time, t4: Time, t5: Time, noBody: Body)
    ensures var st3 := ServeCollection(Seed(t0), "POST", Parsed(Task(0, "X", "T", "O", "Low", false, "", 0, None)), t3);
      var st4 := ServeItem(st3.after, "/api/tasks/9", "PUT", Parsed(Task(0, "Y", "T", "O", "High", true, "", 0, None)), t4);
      var st5 := ServeItem(st4.after, "/api/tasks/9", "DELETE", noBody, t5);
      && st3.response == Response(OK, OneTask(Task(9, "X", "T", "O", "Low", false, "", t3, None)))
      && st4.response == Response(OK, OneTask(Task(9, "Y", "T", "O", "High", true, "", t3, Some(t4))))
      && st5.response == Response(NoContent, Empty)
      && !HasId(st5.after.tasks, 9)
      && ServeItem(st5.after, "/api/tasks/9", "DELETE", noBody, t5).response.status == NotFound
  {
    var s0 := Seed(t0);
    var x := Task(0, "X", "T", "O", "Low", false, "", 0, None);
    var y := Task(0, "Y", "T", "O", "High", true, "", 0, None);
    assert IdPath(9) == "/api/tasks/9";
    CreateAppends(s0, x, t3);
    var s3 := ServeCollection(s0, "POST", Parsed(x), t3).after;
    ServeCollectionInvariants(s0, "POST", Parsed(x), t3);
    assert s3.tasks[8].id == 9;
    ReplaceInPlace(s3, 9, y, t4);
    assert FirstIndex(s3.tasks, 9) == Some(8);
    var s4 := ServeItem(s3, "/api/tasks/9", "PUT", Parsed(y), t4).after;
    ServeItemInvariants(s3, "/api/tasks/9", "PUT", Parsed(y), t4);
    assert s4.tasks[8].id == 9;
    DeleteOnce(s4, 9, noBody, t5);
  }

  // ---------------------------------------------------------------------------
  // The handlers on the shared store object

  method TasksHandler(tm: TaskManager, verb: string, body: Body, now: Time) returns (resp: Response)
    modifies tm
    ensures var st := ServeCollection(old(tm.Snapshot()), verb, body, now);
      tm.Snapshot() == st.after && resp == st.response
    ensures old(tm.Valid()) ==> tm.Valid()
  {
    ghost var before := tm.Snapshot();
    if verb == "GET" {
      resp := Response(OK, TaskList(tm.tasks));
    } else if verb == "POST" {
      match body
      case Unparseable(reason) =>
        resp := Response(BadRequest, ErrorText(reason));
      case Parsed(b) =>
        var task := tm.Create(b, now);
        resp := Response(OK, OneTask(task));
    } else {
      resp := Response(OK, Empty);
    }
    ServeCollectionInvariants(before, verb, body, now);
  }

  method TaskHandler(tm: TaskManager, path: string, verb: string, body: Body, now: Time) returns (resp: Response)
    requires IsItemPath(path)
    modifies tm
    ensures var st := ServeItem(old(tm.Snapshot()), path, verb, body, now);
      tm.Snapshot() == st.after && resp == st.response
    ensures old(tm.Valid()) ==> tm.Valid()
  {
    ghost var before := tm.Snapshot();
    match Classify(path)
    case MissingId =>
      resp := Response(BadRequest, ErrorText("Task ID required"));
    case InvalidId =>
      resp := Response(BadRequest, ErrorText("Invalid task ID"));
    case ToggleRoute(id) =>
      if verb == "POST" {
        var r := tm.Toggle(id, now);
        match r
        case None => resp := TaskNotFound();
        case Some(task) => resp := Response(OK, OneTask(task));
      } else {
        resp := Response(OK, Empty);
      }
    case ItemRoute(id) =>
      if verb == "PUT" {
        match body
        case Unparseable(reason) =>
          resp := Response(BadRequest, ErrorText(reason));
        case Parsed(b) =>
          var r := tm.Replace(id, b, now);
          match r
          case None => resp := TaskNotFound();
          case Some(task) => resp := Response(OK, OneTask(task));
      } else if verb == "DELETE" {
        var found := tm.Delete(id);
        resp := if found then Response(NoContent, Empty) else TaskNotFound();
      } else {
        resp := Response(OK, Empty);
      }
    ServeItemInvariants(before, path, verb, body, now);
  }
}
