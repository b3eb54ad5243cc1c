/** The rows of the `tasks` and `projects` tables as the client receives them
    (src/lib/supabase.ts). Ids, timestamps and dates are opaque strings. */
module Records {
  import opened Wrappers

  type UserId = string

  datatype Priority = Low | Medium | High

  datatype Project = Project(
    id: string,
    name: string,
    description: Option<string>,
    color: string,
    createdAt: string,
    updatedAt: string,
    userId: UserId)

  /** A task row; `project` is the snapshot of the owning project that the
      backend embeds when the row is selected with its join. */
  datatype Task = Task(
    id: string,
    title: string,
    description: Option<string>,
    completed: bool,
    priority: Priority,
    dueDate: Option<string>,
    createdAt: string,
    updatedAt: string,
    userId: UserId,
    projectId: Option<string>,
    project: Option<Project>)

  function TaskKey(t: Task): string { t.id }

  function ProjectKey(p: Project): string { p.id }

  /** What a store operation throws: the store's own "not signed in" error,
      or the backend's error value, passed through unchanged. */
  datatype Error = NotSignedIn | Backend(message: string)
}
