# Task manager session and store layer, modelled in Dafny

This project models the client-side state layer of a personal task manager.
That layer is made of four parts:

- a **session manager** that tracks the signed-in user and whether the first session lookup has settled;
- a **task store** and a **project store** that keep the user's rows in memory, newest first, and change that local copy only after the backend has answered;
- a **navigation guard** that waits for the session to settle and then allows a navigation or redirects it.

The backend is not modelled. Each remote call is a parameter holding the reply the backend gives: `Ok(row)` / `Ok(rows)` or `Err(error)`, or `Pass` / `Fail(error)` for calls that return nothing. The current user, which each store looks up from the backend at call time, is an `Option<UserId>` parameter. Each store operation also returns the request it sent, or `None` when it sent none. That is how the model states which remote calls are made and which are not.

Files:

- `wrappers.dfy`: `Option`, `Result`, `Outcome`.
- `records.dfy`: the `Task` and `Project` rows, the priority enum and the error type. The error is either the store's own `NotSignedIn` or `Backend(message)`, the backend's error passed through.
- `collection.dfy`: the `findIndex`, `find` and `filter`-by-id helpers both stores use, with their properties. They are generic over a key function that reads an entry's id.
- `tasks.dfy`, `projects.dfy`: the two stores as classes. Their fields (`tasks` / `projects` and `loading`) are updated in place, as in the source.
- `auth.dfy`: the session manager as a class with `user`, `loading` and the number of auth-change callbacks it has registered.
- `router.dfy`: the route table, the guard's decision, and the wait-then-decide state of one navigation. That state is a pure transition function, and a class drives it from session-change notifications.

Every method that changes a store states its whole new state in terms of the old one, on every path: success, no user, and backend error. Sign-up, sign-in and sign-out have no `modifies` clause, so the verifier checks that they never write `user`. The session changes only through `Initialize` and `AuthStateChanged`.

After a successful update, the local entry becomes exactly the row the backend returns (src/stores/tasks.ts:96, src/stores/projects.ts:73). The patch is not merged into the old entry. The task update's `.select()` (src/stores/tasks.ts:89) does not request the project join, so that row has no project snapshot until the next fetch.

The guard sees the path a navigation lands on after redirect records are applied. A navigation to `/` is therefore decided as one to `/tasks` (src/router/index.ts:8-9).

## Model

| member | source | states |
|---|---|---|
| Collection.FindIndex | src/stores/tasks.ts:94 | The result is -1 exactly when no entry has the id; otherwise it is an index holding the id, and no earlier entry has it |
| Collection.Find | src/stores/tasks.ts:121 | `None` exactly when no entry has the id; otherwise the entry at the first matching index, which carries the id |
| Collection.Without | src/stores/tasks.ts:112 | Keeps exactly the entries whose id differs: every kept entry was in the input without the id, and every such input entry is kept. It never grows, and it is the identity when the id is absent |
| Collection.WithoutConcat | src/stores/projects.ts:92 | Filtering distributes over concatenation, so kept entries keep their relative order |
| Collection.WithoutLength | src/stores/tasks.ts:112 | The filtered length is the input length minus the number of entries carrying the id |
| Collection.WithoutIdempotent | src/stores/projects.ts:92 | Deleting the same id twice locally is the same as deleting it once |
| Tasks.NewTaskRow | src/stores/tasks.ts:39-62 | The inserted row is not completed, is owned by the current user, and has priority `medium` unless one is given; the other fields are the arguments |
| Tasks.CompletionPatch | src/stores/tasks.ts:123 | The toggle patch sets only `completed` |
| Tasks.TaskStore.constructor | src/stores/tasks.ts:6-7 | Starts with no tasks and `loading` false |
| Tasks.TaskStore.FetchTasks | src/stores/tasks.ts:10-36 | `loading` ends false on every path. With a user, it selects that user's rows; on success the collection becomes exactly those rows, or empty when the backend returns null. With no user nothing is sent; with no user or a failed select the collection is unchanged |
| Tasks.TaskStore.CreateTask | src/stores/tasks.ts:39-80 | With no user, throws `NotSignedIn`, sends nothing and changes nothing. Otherwise it sends the `NewTaskRow` insert and returns the backend's reply; on success the length grows by one, the new row is at index 0 and the rest is the old collection; on failure nothing changes |
| Tasks.TaskStore.UpdateTask | src/stores/tasks.ts:83-103 | Always sends the update and returns the reply. On success the length is kept, only the first entry with the id becomes the returned row, and nothing changes when no entry has the id. On failure nothing changes |
| Tasks.TaskStore.DeleteTask | src/stores/tasks.ts:106-117 | Always sends the delete and returns the reply. On success the collection is the old one filtered by id, so no entry has the id and it is unchanged when the id was absent. On failure nothing changes |
| Tasks.TaskStore.ToggleTask | src/stores/tasks.ts:120-125 | With no local entry for the id, sends nothing, succeeds and changes nothing. Otherwise it sends exactly one update, whose patch is the negated `completed` of the first matching entry; it fails with the update's error and changes nothing, or it succeeds and replaces only that entry |
| Projects.ProjectColor | src/stores/projects.ts:43 | An absent colour or the empty string gives `#3498db`, any other colour is kept, and the result is never empty |
| Projects.NewProjectRow | src/stores/projects.ts:39-46 | The inserted row is owned by the current user and carries the defaulted colour, the name and the description |
| Projects.ProjectStore.constructor | src/stores/projects.ts:6-7 | Starts with no projects and `loading` false |
| Projects.ProjectStore.FetchProjects | src/stores/projects.ts:10-29 | `loading` ends false. With a user, it selects that user's rows; on success the collection is the rows, or empty on null. With no user or on error the collection is unchanged |
| Projects.ProjectStore.CreateProject | src/stores/projects.ts:32-57 | With no user, throws `NotSignedIn` and changes nothing. Otherwise it sends the `NewProjectRow` insert; on success the row is prepended and the length grows by one; on failure it throws the backend error and nothing changes |
| Projects.ProjectStore.UpdateProject | src/stores/projects.ts:60-80 | On success only the first entry with the id is replaced, and order and length are kept; it is a local no-op when the id is absent. On failure nothing changes |
| Projects.ProjectStore.DeleteProject | src/stores/projects.ts:83-97 | On success every entry with the id is removed and the rest keep their order. On failure nothing changes |
| Auth.SessionUser | src/stores/auth.ts:16 | A user exactly when there is a session, namely that session's user |
| Auth.SessionManager.constructor | src/stores/auth.ts:7-8 | Starts with no user, `loading` true and no callback registered |
| Auth.SessionManager.IsAuthenticated | src/stores/auth.ts:10 | Holds exactly when a user is present |
| Auth.SessionManager.Initialize | src/stores/auth.ts:13-27 | `loading` ends false whether or not the lookup threw. On success the user is the session's user (or none) and one callback is registered; when the lookup throws, the user is left as it was and nothing is registered |
| Auth.SessionManager.AuthStateChanged | src/stores/auth.ts:19-21 | With a callback registered, the user becomes the event's session user (or none), whatever it was before; with none registered it is unchanged. Nothing else changes |
| Auth.SessionManager.SignUp | src/stores/auth.ts:30-43 | Sends the credentials with the username as user metadata, returns exactly the backend's reply, and writes no state |
| Auth.SessionManager.SignIn | src/stores/auth.ts:46-54 | Sends the credentials, returns exactly the backend's reply, and writes no state |
| Auth.SessionManager.SignOut | src/stores/auth.ts:57-60 | Returns exactly the backend's outcome and writes no state |
| Router.Lookup | src/router/index.ts:6-35 | `None` exactly when no record has the path; otherwise a record of the table declared for that path |
| Router.LookupRoutes | src/router/index.ts:7-34 | The record declared for each of the five paths, and none for any other path |
| Router.MetaOfRoutes | src/router/index.ts:15-33 | `/auth` is guest-only, `/tasks`, `/profile` and `/projects` require a user, and every other path has no flags |
| Router.RouteTableMeta | src/router/index.ts:7-34 | Only `/auth` is guest-only; `/tasks`, `/profile` and `/projects` require a user; no path has both flags; `/` lands on `/tasks` |
| Router.Decide | src/router/index.ts:54-64 | Redirect to `/auth` iff the route requires a user and none is signed in; otherwise redirect to `/tasks` iff it is guest-only and a user is signed in; otherwise allow |
| Router.RedirectsDoNotLoop | src/router/index.ts:58-61 | The target of every redirect is a path of its own, and the same session is allowed there |
| Router.SnapshotOf | src/router/index.ts:43-56 | The guard reads the session manager's `loading` flag and whether a user is present |
| Router.Resolve | src/router/index.ts:8-9 | A path with a redirect record lands on that record's target, and every other path on itself; a landing path is never itself a redirect |
| Router.MetaOf | src/router/index.ts:54-55 | The flags of the view record for the path, or none; only `/auth` is guest-only, and no path has both flags |
| Router.EntryPathDecision | src/router/index.ts:8-21 | The entry path `/` lands on `/tasks`: a signed-out user is redirected to `/auth`, and a signed-in one is allowed |
| Router.Enter | src/router/index.ts:39-64 | The navigation is for the landing path of the requested one. It waits exactly when the session is loading; otherwise it is decided at once by `Decide` on the landing path's flags |
| Router.Notify | src/router/index.ts:45-50 | A decided navigation, or any navigation notified while the session is loading, is unchanged; a waiting one notified after loading ends is decided for its path with that moment's status |
| Router.Run | src/router/index.ts:43-52 | After any run of notifications the navigation is for the same path; a decided one is unchanged. A waiting one that ends decided was decided with the status seen at some notification that found the session settled |
| Router.NoDecisionWhileLoading | src/router/index.ts:43-52 | Any run of notifications that all find `loading` true leaves the navigation waiting |
| Router.DecidedAtFirstSettled | src/router/index.ts:43-63 | A waiting navigation is decided at the first notification that finds `loading` false, using the authentication status of that moment |
| Router.PendingNavigation.constructor | src/router/index.ts:39-52 | Entering the guard gives the `Enter` state for the session as it is: the navigation is for the landing path, waiting while the session is loading and decided otherwise |
| Router.PendingNavigation.Watching | src/router/index.ts:45-50 | The guard listens exactly while the navigation is waiting |
| Router.PendingNavigation.SessionChanged | src/router/index.ts:45-50 | A notification advances the state by `Notify`: a decided navigation is unchanged, and a waiting one stays waiting while the session is loading |
| Router.FirstNavigation | src/router/index.ts:39-64 | A navigation issued before `initialize` settles is decided on its landing path's flags, for the user the session lookup found, and as signed out when that lookup threw |

## Left out

- The backend client, its construction and the environment variables it reads (src/lib/supabase.ts:1-7): the backend appears only through reply parameters.
- The network calls themselves and what the backend computes: row-level security, owner enforcement, timestamps, ordering by creation time, and the join that embeds a project snapshot in each task row. The model does not check any property of a reply row.
- Logging of swallowed and rethrown errors: it has no effect on state.
- The reactivity framework (`ref`, `computed`, store definition, `$subscribe`): fields are plain class fields; a state-change notification is an explicit `SessionChanged` call.
- Interleaving of overlapping asynchronous calls (for example last-writer-wins between two updates of one id): every operation is atomic and sequential.
- Tasks.TaskStore.FetchTasks: the `loading = true` that the source keeps visible while the select is in flight is not observable, because the call is atomic; only its final `false` is stated. The same holds for Projects.ProjectStore.FetchProjects.
- Router.Notify: the source reads the authentication status when the awaited promise resumes, just after the notification; the model reads it at the notification.
- The router's re-entry after a redirect (`next(path)` starts a new navigation): it is not run as a further guard step. Router.RedirectsDoNotLoop states what that re-entry decides.
- Router.Lookup: matches a path to a record by exact string equality. The router's default matcher also ignores letter case and a trailing slash, so for example `/tasks/` requires a user there but has no flags in the model.
- Update patches: `TaskPatch` and `ProjectPatch` carry only the editable fields (title, description, completed, priority, due date and project id for tasks; name, description and colour for projects). The source's partial rows also admit `user_id`, `created_at`, `updated_at` and, for tasks, the embedded `project`. A patch is only forwarded in the request the store sends, so nothing else in the model depends on these fields.
- Lazy loading of view components, the history mode, route names beyond the table, and the view layer.
- The auth-change event name: the callback ignores it, so the model passes only the session.
- The `Profile` row type (src/lib/supabase.ts:34-41): nothing in this layer reads or writes it.
