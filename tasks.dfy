/**
 * One task record (`Task` in main.go) and the per-record rules the handlers
 * apply to it: stamping a created task, toggling completion, and replacing a
 * task by a decoded request body.
 */
module Tasks {
  import opened Wrappers

  /** An instant returned by `time.Now()`. The model never orders instants; it only stores and compares them. */
  type Time = int

  /** A task. `kind` is the JSON field `type`; `completedAt` is the nullable `*time.Time`. */
  datatype Task = Task(
    id: int,
    title: string,
    kind: string,
    owner: string,
    priority: string,
    completed: bool,
    notes: string,
    createdAt: Time,
    completedAt: Option<Time>)

  /** The completion-stamp invariant: a stamp is present exactly when the task is completed. */
  predicate StampMatches(t: Task) {
    t.completedAt.Some? <==> t.completed
  }

  /** The free-text fields, which every handler copies unchanged from its source record. */
  predicate SameText(a: Task, b: Task) {
    a.title == b.title && a.kind == b.kind && a.owner == b.owner
    && a.priority == b.priority && a.notes == b.notes
  }

  /**
   * The record that `POST /api/tasks` stores: the decoded body with only the
   * ID and the creation time overwritten. Completion and its stamp are taken
   * from the body as sent.
   */
  function Created(body: Task, id: int, now: Time): (t: Task)
    ensures t.id == id && t.createdAt == now
    ensures SameText(t, body)
    ensures t.completed == body.completed && t.completedAt == body.completedAt
  {
    body.(id := id, createdAt := now)
  }

  /** The record after `POST /api/tasks/{id}/toggle`. */
  function Toggled(t: Task, now: Time): (r: Task)
    ensures r.completed == !t.completed
    ensures StampMatches(r)
    ensures r.completed ==> r.completedAt == Some(now)
    ensures r.id == t.id && r.createdAt == t.createdAt && SameText(r, t)
  {
    var done := !t.completed;
    t.(completed := done, completedAt := if done then Some(now) else None)
  }

  /**
   * The record after `PUT /api/tasks/{id}`: the body, under the path ID, keeping
   * the stored creation time, with the completion stamp set on a false-to-true
   * change, cleared when the body is not completed, and kept otherwise.
   */
  function Replaced(current: Task, body: Task, id: int, now: Time): (r: Task)
    ensures r.id == id && r.createdAt == current.createdAt
    ensures SameText(r, body) && r.completed == body.completed
    ensures !current.completed && body.completed ==> r.completedAt == Some(now)
    ensures !body.completed ==> r.completedAt == None
    ensures current.completed && body.completed ==> r.completedAt == current.completedAt
    ensures StampMatches(current) ==> StampMatches(r)
  {
    var stamp :=
      if body.completed && !current.completed then Some(now)
      else if !body.completed then None
      else current.completedAt;
    body.(id := id, createdAt := current.createdAt, completedAt := stamp)
  }

  /**
   * Toggling twice restores `completed`; the stamp is then the second toggle's
   * instant or absent, so a task that was open and consistent comes back
   * exactly, while a completed one keeps everything but its old stamp.
   */
  lemma ToggledTwice(t: Task, first: Time, second: Time)
    ensures Toggled(Toggled(t, first), second).completed == t.completed
    ensures !t.completed && StampMatches(t) ==> Toggled(Toggled(t, first), second) == t
    ensures t.completed ==> Toggled(Toggled(t, first), second) == t.(completedAt := Some(second))
  {
  }

  /** A body sent as completed but without a stamp is stored as is, which breaks the stamp invariant. */
  lemma CreatedMayBreakStamp(body: Task, id: int, now: Time)
    requires body.completed && body.completedAt == None
    ensures !StampMatches(Created(body, id, now))
  {
  }

  /** Creation keeps the stamp invariant exactly when the body already satisfies it. */
  lemma CreatedStampIff(body: Task, id: int, now: Time)
    ensures StampMatches(Created(body, id, now)) <==> StampMatches(body)
  {
  }
}
