/** The lifecycle of a `Task` row: the columns declared `nullable = false`,
    and the hooks the persistence layer runs before an insert (`prePersist`)
    and before an update (`preUpdate`). */
module TaskLifecycle {
  import opened Wrappers
  import opened Entities

  /** The four `nullable = false` columns are set. */
  predicate NonNullColumns(t: Task) {
    t.title.Some? && t.status.Some? && t.priority.Some? && t.user.Some?
  }

  /** `prePersist`: both timestamps become the same instant; nothing else changes. */
  function PrePersisted(t: Task, now: Time): (r: Task)
    ensures r.createdAt == Some(now) && r.updatedAt == r.createdAt
    ensures r.(createdAt := t.createdAt, updatedAt := t.updatedAt) == t
  {
    t.(createdAt := Some(now), updatedAt := Some(now))
  }

  /** `preUpdate`: `updatedAt` is always refreshed; `completedAt` is stamped
      only for a completed task that has none; nothing else changes. */
  function PreUpdated(t: Task, now: Time): (r: Task)
    ensures r.updatedAt == Some(now)
    ensures t.completedAt.Some? ==> r.completedAt == t.completedAt
    ensures t.completedAt.None? ==> (r.completedAt.Some? <==> t.status == Some(COMPLETED))
    ensures r.completedAt.Some? ==> r.completedAt == t.completedAt || r.completedAt == Some(now)
    ensures r.(updatedAt := t.updatedAt, completedAt := t.completedAt) == t
  {
    var stamped := if t.status == Some(COMPLETED) && t.completedAt.None? then Some(now) else t.completedAt;
    t.(updatedAt := Some(now), completedAt := stamped)
  }

  /** Saving the row with its status set to `status` at `now`: a write that
      leaves the row unchanged is skipped and its hook does not run. */
  function StatusWritten(t: Task, status: Option<Status>, now: Time): (r: Task)
    ensures r.status == status
    ensures status == t.status ==> r == t
    ensures status != t.status ==> r == PreUpdated(t.(status := status), now)
  {
    if status == t.status then t else PreUpdated(t.(status := status), now)
  }

  /** A row after a series of status writes, each saved at its own instant. */
  function AfterStatusWrites(t: Task, writes: seq<(Option<Status>, Time)>): Task
    decreases |writes|
  {
    if writes == [] then t
    else AfterStatusWrites(StatusWritten(t, writes[0].0, writes[0].1), writes[1..])
  }

  /** The status a row has just before write `i`: the starting status, or
      the one the previous write set. */
  function StatusBefore(from: Option<Status>, writes: seq<(Option<Status>, Time)>, i: nat): Option<Status>
    requires i <= |writes|
  {
    if i == 0 then from else writes[i - 1].0
  }

  /** A write that moves the row into COMPLETED from another status. */
  predicate Completes(from: Option<Status>, writes: seq<(Option<Status>, Time)>, i: nat)
    requires i < |writes|
  {
    writes[i].0 == Some(COMPLETED) && StatusBefore(from, writes, i) != Some(COMPLETED)
  }

  /** The index of the first write that moves a row starting in status
      `from` into COMPLETED, if any. */
  function FirstCompletion(from: Option<Status>, writes: seq<(Option<Status>, Time)>): (r: Option<nat>)
    ensures r.Some? ==> r.value < |writes| && Completes(from, writes, r.value)
    ensures r.Some? ==> forall j :: 0 <= j < r.value ==> !Completes(from, writes, j)
    ensures r.None? ==> forall j :: 0 <= j < |writes| ==> !Completes(from, writes, j)
    decreases |writes|
  {
    if writes == [] then None
    else if writes[0].0 == Some(COMPLETED) && from != Some(COMPLETED) then Some(0)
    else
      var rest := FirstCompletion(writes[0].0, writes[1..]);
      forall j | 0 < j < |writes|
        ensures Completes(from, writes, j) == Completes(writes[0].0, writes[1..], j - 1)
      {
        assert writes[1..][j - 1] == writes[j];
        if j > 1 {
          assert writes[1..][j - 2] == writes[j - 1];
        }
      }
      assert !Completes(from, writes, 0);
      if rest.Some? then Some(rest.value + 1) else None
  }

  /** Once set, `completedAt` survives any later writes, whatever status they set. */
  lemma {:induction false} CompletedAtNeverOverwritten(t: Task, writes: seq<(Option<Status>, Time)>)
    requires t.completedAt.Some?
    ensures AfterStatusWrites(t, writes).completedAt == t.completedAt
    decreases |writes|
  {
    if writes != [] {
      CompletedAtNeverOverwritten(StatusWritten(t, writes[0].0, writes[0].1), writes[1..]);
    }
  }

  /** Starting without `completedAt`, a row ends up stamped with the instant
      of the first write that moved it into COMPLETED, and stays unstamped
      if no write did; a COMPLETED write to a row already COMPLETED is a
      skipped save and stamps nothing. */
  lemma {:induction false} CompletedAtIsFirstCompletion(t: Task, writes: seq<(Option<Status>, Time)>)
    requires t.completedAt.None?
    ensures var first := FirstCompletion(t.status, writes);
      AfterStatusWrites(t, writes).completedAt == if first.Some? then Some(writes[first.value].1) else None
    decreases |writes|
  {
    if writes != [] {
      var next := StatusWritten(t, writes[0].0, writes[0].1);
      if writes[0].0 == Some(COMPLETED) && t.status != Some(COMPLETED) {
        CompletedAtNeverOverwritten(next, writes[1..]);
      } else {
        assert next.completedAt.None?;
        CompletedAtIsFirstCompletion(next, writes[1..]);
        var rest := FirstCompletion(next.status, writes[1..]);
        if rest.Some? {
          assert writes[1..][rest.value] == writes[rest.value + 1];
        }
      }
    }
  }

  /** For a row that is not yet COMPLETED, the first write that completes it
      is simply the first write that sets COMPLETED. */
  lemma {:induction false} FirstCompletionFromOther(from: Option<Status>, writes: seq<(Option<Status>, Time)>, i: nat)
    requires from != Some(COMPLETED) && i < |writes| && writes[i].0 == Some(COMPLETED)
    requires forall j :: 0 <= j < i ==> writes[j].0 != Some(COMPLETED)
    ensures FirstCompletion(from, writes) == Some(i)
  {
    var r := FirstCompletion(from, writes);
    assert Completes(from, writes, i);
  }

  /** A `Task` entity object, whose lifecycle hooks assign its fields in place. */
  class TaskEntity {
    var id: Option<nat>
    var title: Option<string>
    var description: Option<string>
    var status: Option<Status>
    var priority: Option<Priority>
    var dueDate: Option<Time>
    var user: Option<nat>
    var createdAt: Option<Time>
    var updatedAt: Option<Time>
    var completedAt: Option<Time>
    var category: Option<nat>
    var startTime: Option<Time>
    var endTime: Option<Time>

    function Row(): Task
      reads this
    {
      Task(id, title, description, status, priority, dueDate, user,
           createdAt, updatedAt, completedAt, category, startTime, endTime)
    }

    constructor (t: Task)
      ensures Row() == t
    {
      id, title, description, status, priority := t.id, t.title, t.description, t.status, t.priority;
      dueDate, user, createdAt, updatedAt := t.dueDate, t.user, t.createdAt, t.updatedAt;
      completedAt, category, startTime, endTime := t.completedAt, t.category, t.startTime, t.endTime;
    }

    /** `@PrePersist prePersist()` */
    method PrePersist(now: Time)
      modifies this`createdAt, this`updatedAt
      ensures Row() == PrePersisted(old(Row()), now)
    {
      createdAt := Some(now);
      updatedAt := Some(now);
    }

    /** `@PreUpdate preUpdate()` */
    method PreUpdate(now: Time)
      modifies this`updatedAt, this`completedAt
      ensures Row() == PreUpdated(old(Row()), now)
    {
      updatedAt := Some(now);
      if status == Some(COMPLETED) && completedAt.None? {
        completedAt := Some(now);
      }
    }
  }
}
