/** The `sonarqube_project` resource: how its configuration becomes client
    calls, which changes reach the service, and when the resource id is
    set and cleared. */
module ProjectResource {
  import opened Wrappers
  import opened Client
  import opened SonarQube

  /** The arguments as written; an omitted optional argument is `None`. */
  datatype ProjectConfig = ProjectConfig(
    name: string,
    projectKey: string,
    visibility: Option<string>,
    mainBranch: Option<string>,
    tags: seq<string>)

  /** The attribute values the resource functions read with `d.Get`. */
  datatype ProjectAttrs = ProjectAttrs(
    name: string,
    projectKey: string,
    visibility: string,
    mainBranch: string,
    tags: seq<string>)

  /** The saved state: the resource id (empty when there is none) and the
      attribute values. */
  datatype ProjectState = ProjectState(id: string, attrs: ProjectAttrs)

  const DefaultVisibility := "private"
  const DefaultMainBranch := "main"

  /** The schema defaults: an omitted `visibility` is "private" and an
      omitted `main_branch` is "main"; every written value is kept. */
  function Resolve(c: ProjectConfig): (a: ProjectAttrs)
    ensures a.name == c.name && a.projectKey == c.projectKey && a.tags == c.tags
    ensures a.visibility == (if c.visibility.Some? then c.visibility.value else DefaultVisibility)
    ensures a.mainBranch == (if c.mainBranch.Some? then c.mainBranch.value else DefaultMainBranch)
  {
    ProjectAttrs(c.name, c.projectKey, c.visibility.GetOr(DefaultVisibility), c.mainBranch.GetOr(DefaultMainBranch), c.tags)
  }

  /** What a plan does with an existing project. */
  datatype Change = NoChange | InPlace | Replace

  /** `project_key` is ForceNew: a new key replaces the project, any other
      difference is an in-place update. */
  function PlanChange(prior: ProjectAttrs, desired: ProjectAttrs): (c: Change)
    ensures c == Replace <==> prior.projectKey != desired.projectKey
    ensures c == NoChange <==> prior == desired
  {
    if prior.projectKey != desired.projectKey then Replace
    else if prior == desired then NoChange
    else InPlace
  }

  /** `d.HasChanges("name", "visibility", "tags")`. */
  predicate UpdateNeeded(prior: ProjectAttrs, desired: ProjectAttrs)
  {
    prior.name != desired.name || prior.visibility != desired.visibility || prior.tags != desired.tags
  }

  /** The attributes Read stores for a project the service describes. */
  function Mirror(p: Project): ProjectAttrs
  {
    ProjectAttrs(p.name, p.key, p.visibility, p.mainBranch, p.tags)
  }

  /** `resourceProjectRead`: look the project up by the resource id and
      store what the service says; on error the state is left alone. */
  function Read(s: ProjectState, rs: Replies, at: nat): (r: Outcome<ProjectState>)
    ensures r.calls == [ReadProjectRequest(s.id)]
    ensures r.error.None? <==> Accepted(r.calls[0], ReplyAt(rs, at))
    ensures r.error.Some? ==> r.state == s && r.error.value == ReadProject(s.id, ReplyAt(rs, at)).result.error
    ensures r.error.None? ==> r.state == ProjectState(s.id, Mirror(ReplyAt(rs, at).body.components[0]))
  {
    var found := ReadProject(s.id, ReplyAt(rs, at));
    match found.result
    case Failure(e) => Outcome(found.calls, s, Some(e))
    case Success(p) => Outcome(found.calls, ProjectState(s.id, Mirror(p)), None)
  }

  /** `resourceProjectCreate`: create with the resolved arguments, take the
      key the service returns as the id, then read the project back. A
      failed create leaves no id and issues nothing more. */
  function Create(c: ProjectConfig, rs: Replies): (r: Outcome<ProjectState>)
    ensures var a := Resolve(c);
            |r.calls| >= 1 && r.calls[0] == CreateProjectRequest(a.name, a.projectKey, a.visibility, a.mainBranch, a.tags)
    ensures !Accepted(r.calls[0], ReplyAt(rs, 0)) ==>
              |r.calls| == 1 && r.state.id == "" && r.error == Some(Rejection(ReplyAt(rs, 0)))
    ensures Accepted(r.calls[0], ReplyAt(rs, 0)) ==>
              var id := ReplyAt(rs, 0).body.project.key;
              && r.calls == [r.calls[0], ReadProjectRequest(id)] && r.state.id == id
              && r.state == Read(ProjectState(id, Resolve(c)), rs, 1).state
              && r.error == Read(ProjectState(id, Resolve(c)), rs, 1).error
  {
    var a := Resolve(c);
    var created := CreateProject(a.name, a.projectKey, a.visibility, a.mainBranch, a.tags, ReplyAt(rs, 0));
    match created.result
    case Failure(e) => Outcome(created.calls, ProjectState("", a), Some(e))
    case Success(p) =>
      var read := Read(ProjectState(p.key, a), rs, 1);
      Outcome(created.calls + read.calls, read.state, read.error)
  }

  /** `resourceProjectUpdate`: send `projects/update` for the stored id
      exactly when name, visibility or tags changed, then read back unless
      the update failed. */
  function Update(prior: ProjectState, desired: ProjectAttrs, rs: Replies): (r: Outcome<ProjectState>)
    ensures UpdateNeeded(prior.attrs, desired) ==>
              && |r.calls| >= 1
              && r.calls[0] == UpdateProjectRequest(prior.id, desired.name, desired.visibility, desired.tags)
              && (Accepted(r.calls[0], ReplyAt(rs, 0)) <==> |r.calls| == 2)
              && (|r.calls| == 2 ==> r.calls[1] == ReadProjectRequest(prior.id))
    ensures !UpdateNeeded(prior.attrs, desired) ==> r.calls == [ReadProjectRequest(prior.id)]
    ensures forall q :: q in r.calls ==> "project" in q.params && q.params["project"] == prior.id
    ensures r.state.id == prior.id
    ensures FollowsPlan(UpdateSteps(prior, desired), rs, 0, r.calls, r.error.None?)
    ensures var n := |UpdateSteps(prior, desired)| - 1;
            && (|r.calls| <= n ==> r.state == ProjectState(prior.id, desired) && r.error == Some(Rejection(ReplyAt(rs, 0))))
            && (|r.calls| > n ==> r.state == Read(ProjectState(prior.id, desired), rs, n).state
                                  && r.error == Read(ProjectState(prior.id, desired), rs, n).error)
  {
    var s := ProjectState(prior.id, desired);
    var get := ReadProjectRequest(prior.id);
    if UpdateNeeded(prior.attrs, desired) then
      var updated := UpdateProject(prior.id, desired.name, desired.visibility, desired.tags, ReplyAt(rs, 0));
      Single(updated.calls[0], rs, 0);
      if updated.result.Failure? then
        StopEarly(updated.calls, [get], rs, 0, updated.calls);
        Outcome(updated.calls, s, Some(updated.result.error))
      else
        var read := Read(s, rs, 1);
        Single(get, rs, 1);
        Chain(updated.calls, [get], rs, 0, updated.calls, read.calls, read.error.None?);
        Outcome(updated.calls + read.calls, read.state, read.error)
    else
      Single(get, rs, 0);
      Read(s, rs, 0)
  }

  /** The requests an update issues when nothing fails: `projects/update`
      only when something it sends changed, then the read by the stored id. */
  function UpdateSteps(prior: ProjectState, desired: ProjectAttrs): (plan: seq<Request>)
    ensures |plan| == (if UpdateNeeded(prior.attrs, desired) then 2 else 1)
    ensures plan[|plan| - 1] == ReadProjectRequest(prior.id)
  {
    (if UpdateNeeded(prior.attrs, desired) then [UpdateProjectRequest(prior.id, desired.name, desired.visibility, desired.tags)] else [])
    + [ReadProjectRequest(prior.id)]
  }

  /** `resourceProjectDelete`: the id is cleared only when the delete went
      through. */
  function Delete(s: ProjectState, x: Exchange): (r: Outcome<ProjectState>)
    ensures r.calls == [DeleteProjectRequest(s.id)]
    ensures r.error.None? <==> Send(x).Success?
    ensures r.error.None? ==> r.state == s.(id := "")
    ensures r.error.Some? ==> r.state == s && r.error.value == Send(x).error
  {
    var deleted := DeleteProject(s.id, x);
    if deleted.result.Success? then Outcome(deleted.calls, s.(id := ""), None)
    else Outcome(deleted.calls, s, Some(deleted.result.error))
  }
}
