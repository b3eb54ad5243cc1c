/** The task store (src/stores/tasks.ts): the signed-in user's tasks, newest
    first, reconciled with the backend's `tasks` table after each remote call.
    Every remote call is modelled by the reply the backend gives to it, passed
    in as a parameter; the current user is the answer of the session lookup
    the store makes at call time. */
module Tasks {
  import opened Wrappers
  import opened Records
  import Collection

  /** The row sent with an insert. */
  datatype NewTask = NewTask(
    title: string,
    description: Option<string>,
    completed: bool,
    priority: Priority,
    dueDate: Option<string>,
    projectId: Option<string>,
    userId: UserId)

  /** The fields an update sends; an absent field is left as the backend has it. */
  datatype TaskPatch = TaskPatch(
    title: Option<string>,
    description: Option<string>,
    completed: Option<bool>,
    priority: Option<Priority>,
    dueDate: Option<string>,
    projectId: Option<string>)

  /** The requests the store sends to the `tasks` table. */
  datatype TaskRequest =
    | SelectOwnedBy(owner: UserId)
    | Insert(row: NewTask)
    | UpdateById(id: string, patch: TaskPatch)
    | DeleteById(id: string)

  /** The insert row of `createTask`: not completed, owned by the current
      user, priority `medium` unless one is given. */
  function NewTaskRow(title: string, description: Option<string>, priority: Option<Priority>,
                      projectId: Option<string>, dueDate: Option<string>, owner: UserId): (row: NewTask)
    ensures !row.completed && row.userId == owner
    ensures priority.None? ==> row.priority == Medium
    ensures priority.Some? ==> row.priority == priority.value
    ensures row.title == title && row.description == description
    ensures row.dueDate == dueDate && row.projectId == projectId
  {
    NewTask(title, description, false, if priority.Some? then priority.value else Medium,
            dueDate, projectId, owner)
  }

  /** The patch `toggleTask` sends: the completed flag and nothing else. */
  function CompletionPatch(completed: bool): (p: TaskPatch)
    ensures p.completed == Some(completed)
    ensures p.title.None? && p.description.None? && p.priority.None?
    ensures p.dueDate.None? && p.projectId.None?
  {
    TaskPatch(None, None, Some(completed), None, None, None)
  }

  class TaskStore {
    var tasks: seq<Task>
    var loading: bool

    constructor ()
      ensures tasks == [] && !loading
    {
      tasks := [];
      loading := false;
    }

    /** `fetchTasks`: replaces the collection with the user's rows (none when
        the backend returns null); a missing user or a failed select is
        logged and leaves the collection as it was; `loading` ends false. */
    method FetchTasks(currentUser: Option<UserId>, reply: Result<Option<seq<Task>>, Error>)
      returns (sent: Option<TaskRequest>)
      modifies this
      ensures !loading
      ensures currentUser.None? ==> sent == None && tasks == old(tasks)
      ensures currentUser.Some? ==> sent == Some(SelectOwnedBy(currentUser.value))
      ensures currentUser.Some? && reply.Err? ==> tasks == old(tasks)
      ensures currentUser.Some? && reply == Ok(None) ==> tasks == []
      ensures currentUser.Some? && reply.Ok? && reply.value.Some? ==> tasks == reply.value.value
    {
      loading := true;
      sent := None;
      if currentUser.Some? {
        sent := Some(SelectOwnedBy(currentUser.value));
        if reply.Ok? {
          tasks := if reply.value.Some? then reply.value.value else [];
        }
      }
      loading := false;
    }

    /** `createTask`: inserts the row for the current user and puts the
        backend's row at the front; without a user, or when the insert
        fails, it throws and the collection is unchanged. */
    method CreateTask(currentUser: Option<UserId>, title: string, description: Option<string>,
                      priority: Option<Priority>, projectId: Option<string>, dueDate: Option<string>,
                      reply: Result<Task, Error>)
      returns (r: Result<Task, Error>, sent: Option<TaskRequest>)
      modifies this`tasks
      ensures currentUser.None? ==> r == Err(NotSignedIn) && sent == None && tasks == old(tasks)
      ensures currentUser.Some? ==>
                sent == Some(Insert(NewTaskRow(title, description, priority, projectId, dueDate, currentUser.value)))
                && r == reply
      ensures currentUser.Some? && reply.Err? ==> tasks == old(tasks)
      ensures currentUser.Some? && reply.Ok? ==>
                |tasks| == |old(tasks)| + 1 && tasks[0] == reply.value && tasks[1..] == old(tasks)
    {
      if currentUser.None? {
        return Err(NotSignedIn), None;
      }
      sent := Some(Insert(NewTaskRow(title, description, priority, projectId, dueDate, currentUser.value)));
      r := reply;
      if reply.Ok? {
        tasks := [reply.value] + tasks;
      }
    }

    /** `updateTask`: sends the patch; on success the first entry with the id
        becomes the backend's row and nothing else moves (no entry with the
        id: nothing changes); on failure it throws and nothing changes. */
    method UpdateTask(id: string, updates: TaskPatch, reply: Result<Task, Error>)
      returns (r: Result<Task, Error>, sent: TaskRequest)
      modifies this`tasks
      ensures sent == UpdateById(id, updates) && r == reply
      ensures reply.Err? ==> tasks == old(tasks)
      ensures reply.Ok? ==> |tasks| == |old(tasks)|
      ensures reply.Ok? && (forall i :: 0 <= i < |old(tasks)| ==> old(tasks)[i].id != id) ==> tasks == old(tasks)
      ensures reply.Ok? ==>
                var k := Collection.FindIndex(old(tasks), TaskKey, id);
                k != -1 ==> tasks[k] == reply.value && forall j :: 0 <= j < |tasks| && j != k ==> tasks[j] == old(tasks)[j]
    {
      sent := UpdateById(id, updates);
      r := reply;
      if reply.Ok? {
        var index := Collection.FindIndex(tasks, TaskKey, id);
        if index != -1 {
          tasks := tasks[index := reply.value];
        }
      }
    }

    /** `deleteTask`: sends the delete whether or not the id is held locally;
        on success every entry with the id goes and the rest keep their
        order; on failure it throws and nothing changes. */
    method DeleteTask(id: string, reply: Outcome<Error>) returns (r: Outcome<Error>, sent: TaskRequest)
      modifies this`tasks
      ensures sent == DeleteById(id) && r == reply
      ensures reply.Fail? ==> tasks == old(tasks)
      ensures reply.Pass? ==> tasks == Collection.Without(old(tasks), TaskKey, id)
      ensures reply.Pass? ==> forall i :: 0 <= i < |tasks| ==> tasks[i].id != id
      ensures reply.Pass? && (forall i :: 0 <= i < |old(tasks)| ==> old(tasks)[i].id != id) ==> tasks == old(tasks)
    {
      sent := DeleteById(id);
      r := reply;
      if reply.Pass? {
        tasks := Collection.Without(tasks, TaskKey, id);
      }
    }

    /** `toggleTask`: with no local entry for the id, sends nothing and
        changes nothing; otherwise updates the first entry with the id with
        its completed flag negated, and throws what that update throws. */
    method ToggleTask(id: string, reply: Result<Task, Error>) returns (r: Outcome<Error>, sent: Option<TaskRequest>)
      modifies this`tasks
      ensures (forall i :: 0 <= i < |old(tasks)| ==> old(tasks)[i].id != id) ==>
                sent == None && r == Pass && tasks == old(tasks)
      ensures (exists i :: 0 <= i < |old(tasks)| && old(tasks)[i].id == id) ==>
                var k := Collection.FindIndex(old(tasks), TaskKey, id);
                && 0 <= k
                && sent == Some(UpdateById(id, CompletionPatch(!old(tasks)[k].completed)))
                && r == (if reply.Ok? then Pass else Fail(reply.error))
                && (reply.Err? ==> tasks == old(tasks))
                && (reply.Ok? ==> tasks == old(tasks)[k := reply.value])
    {
      var task := Collection.Find(tasks, TaskKey, id);
      r, sent := Pass, None;
      if task.Some? {
        var res, req := UpdateTask(id, CompletionPatch(!task.value.completed), reply);
        sent := Some(req);
        if res.Err? {
          r := Fail(res.error);
        }
      }
    }
  }
}
