/** The project store (src/stores/projects.ts): the signed-in user's
    projects, newest first, reconciled with the backend's `projects` table
    after each remote call. Remote calls and the session lookup are modelled
    as in the task store. */
module Projects {
  import opened Wrappers
  import opened Records
  import Collection

  /** The colour a project gets when none is given. */
  const DefaultColor: string := "#3498db"

  /** The row sent with an insert. */
  datatype NewProject = NewProject(name: string, description: Option<string>, color: string, userId: UserId)

  /** The fields an update sends; an absent field is left as the backend has it. */
  datatype ProjectPatch = ProjectPatch(name: Option<string>, description: Option<string>, color: Option<string>)

  /** The requests the store sends to the `projects` table. */
  datatype ProjectRequest =
    | SelectOwnedBy(owner: UserId)
    | Insert(row: NewProject)
    | UpdateById(id: string, patch: ProjectPatch)
    | DeleteById(id: string)

  /** `color || '#3498db'`: an absent colour and the empty string (both
      falsy) give the default; any other string is kept. */
  function ProjectColor(color: Option<string>): (c: string)
    ensures color.None? || color == Some("") ==> c == DefaultColor
    ensures color.Some? && color.value != "" ==> c == color.value
    ensures c != ""
  {
    if color.Some? && color.value != "" then color.value else DefaultColor
  }

  /** The insert row of `createProject`, owned by the current user. */
  function NewProjectRow(name: string, description: Option<string>, color: Option<string>,
                         owner: UserId): (row: NewProject)
    ensures row.userId == owner && row.color == ProjectColor(color)
    ensures row.name == name && row.description == description
  {
    NewProject(name, description, ProjectColor(color), owner)
  }

  class ProjectStore {
    var projects: seq<Project>
    var loading: bool

    constructor ()
      ensures projects == [] && !loading
    {
      projects := [];
      loading := false;
    }

    /** `fetchProjects`: replaces the collection with the user's rows (none
        when the backend returns null); a missing user or a failed select is
        logged and leaves the collection as it was; `loading` ends false. */
    method FetchProjects(currentUser: Option<UserId>, reply: Result<Option<seq<Project>>, Error>)
      returns (sent: Option<ProjectRequest>)
      modifies this
      ensures !loading
      ensures currentUser.None? ==> sent == None && projects == old(projects)
      ensures currentUser.Some? ==> sent == Some(SelectOwnedBy(currentUser.value))
      ensures currentUser.Some? && reply.Err? ==> projects == old(projects)
      ensures currentUser.Some? && reply == Ok(None) ==> projects == []
      ensures currentUser.Some? && reply.Ok? && reply.value.Some? ==> projects == reply.value.value
    {
      loading := true;
      sent := None;
      if currentUser.Some? {
        sent := Some(SelectOwnedBy(currentUser.value));
        if reply.Ok? {
          projects := if reply.value.Some? then reply.value.value else [];
        }
      }
      loading := false;
    }

    /** `createProject`: inserts the row for the current user and puts the
        backend's row at the front; without a user, or when the insert
        fails, it throws and the collection is unchanged. */
    method CreateProject(currentUser: Option<UserId>, name: string, description: Option<string>,
                         color: Option<string>, reply: Result<Project, Error>)
      returns (r: Result<Project, Error>, sent: Option<ProjectRequest>)
      modifies this`projects
      ensures currentUser.None? ==> r == Err(NotSignedIn) && sent == None && projects == old(projects)
      ensures currentUser.Some? ==>
                sent == Some(Insert(NewProjectRow(name, description, color, currentUser.value))) && r == reply
      ensures currentUser.Some? && reply.Err? ==> projects == old(projects)
      ensures currentUser.Some? && reply.Ok? ==>
                |projects| == |old(projects)| + 1 && projects[0] == reply.value && projects[1..] == old(projects)
    {
      if currentUser.None? {
        return Err(NotSignedIn), None;
      }
      sent := Some(Insert(NewProjectRow(name, description, color, currentUser.value)));
      r := reply;
      if reply.Ok? {
        projects := [reply.value] + projects;
      }
    }

    /** `updateProject`: sends the patch; on success the first entry with the
        id becomes the backend's row and nothing else moves (no entry with
        the id: nothing changes); on failure it throws and nothing changes. */
    method UpdateProject(id: string, updates: ProjectPatch, reply: Result<Project, Error>)
      returns (r: Result<Project, Error>, sent: ProjectRequest)
      modifies this`projects
      ensures sent == UpdateById(id, updates) && r == reply
      ensures reply.Err? ==> projects == old(projects)
      ensures reply.Ok? ==> |projects| == |old(projects)|
      ensures reply.Ok? && (forall i :: 0 <= i < |old(projects)| ==> old(projects)[i].id != id) ==>
                projects == old(projects)
      ensures reply.Ok? ==>
                var k := Collection.FindIndex(old(projects), ProjectKey, id);
                k != -1 ==> projects[k] == reply.value
                            && forall j :: 0 <= j < |projects| && j != k ==> projects[j] == old(projects)[j]
    {
      sent := UpdateById(id, updates);
      r := reply;
      if reply.Ok? {
        var index := Collection.FindIndex(projects, ProjectKey, id);
        if index != -1 {
          projects := projects[index := reply.value];
        }
      }
    }

    /** `deleteProject`: sends the delete; on success every entry with the
        id goes and the rest keep their order; on failure it throws and
        nothing changes. */
    method DeleteProject(id: string, reply: Outcome<Error>) returns (r: Outcome<Error>, sent: ProjectRequest)
      modifies this`projects
      ensures sent == DeleteById(id) && r == reply
      ensures reply.Fail? ==> projects == old(projects)
      ensures reply.Pass? ==> projects == Collection.Without(old(projects), ProjectKey, id)
      ensures reply.Pass? ==> forall i :: 0 <= i < |projects| ==> projects[i].id != id
      ensures reply.Pass? && (forall i :: 0 <= i < |old(projects)| ==> old(projects)[i].id != id) ==>
                projects == old(projects)
    {
      sent := DeleteById(id);
      r := reply;
      if reply.Pass? {
        projects := Collection.Without(projects, ProjectKey, id);
      }
    }
  }
}
