/** The project and quality-gate calls of the client: which parameters each
    sends, and what each returns for a reply. Every call issues exactly one
    request; a transport error is returned as is, with nothing decoded. */
module SonarQube {
  import opened Wrappers
  import opened Text
  import opened Client

  // ---------------------------------------------------------------- projects

  function CreateProjectRequest(name: string, key: string, visibility: string, mainBranch: string, tags: seq<string>): (q: Request)
    ensures q.verb == Post && q.path == "projects/create"
    ensures q.params.Keys
         == {"name", "project", "visibility"}
          + (if mainBranch != "" then {"mainBranch"} else {})
          + (if |tags| > 0 then {"tags"} else {})
    ensures q.params["name"] == name
    ensures q.params["project"] == key
    ensures q.params["visibility"] == visibility
    ensures "mainBranch" in q.params ==> q.params["mainBranch"] == mainBranch
    ensures "tags" in q.params ==> q.params["tags"] == Join(tags, ',')
  {
    var base := map["name" := name, "project" := key, "visibility" := visibility];
    var withBranch := if mainBranch != "" then base["mainBranch" := mainBranch] else base;
    var params := if |tags| > 0 then withBranch["tags" := Join(tags, ',')] else withBranch;
    Request(Post, "projects/create", AProject, params)
  }

  /** `CreateProject`: the created project as the service describes it. */
  function CreateProject(name: string, key: string, visibility: string, mainBranch: string, tags: seq<string>, x: Exchange): (r: Run<Project>)
    ensures r.calls == [CreateProjectRequest(name, key, visibility, mainBranch, tags)]
    ensures r.result.Success? <==> Accepted(r.calls[0], x)
    ensures r.result.Failure? ==> r.result.error == Rejection(x)
    ensures Send(x).Failure? ==> r.result == Failure(Send(x).error)
    ensures r.result.Success? ==> x.body == ProjectJson(r.result.value)
  {
    var run := Issue(CreateProjectRequest(name, key, visibility, mainBranch, tags), x);
    Run(run.calls, if run.result.Success? then Success(run.result.value.project) else Failure(run.result.error))
  }

  function ReadProjectRequest(key: string): (q: Request)
    ensures q.verb == Get && q.path == "projects/search"
    ensures q.params == map["project" := key]
  {
    Request(Get, "projects/search", AComponents, map["project" := key])
  }

  /** `ReadProject`: the first component the search found; a search that
      finds nothing is a not-found error, never an empty success. */
  function ReadProject(key: string, x: Exchange): (r: Run<Project>)
    ensures r.calls == [ReadProjectRequest(key)]
    ensures r.result.Success? <==> Accepted(r.calls[0], x)
    ensures Send(x).Failure? ==> r.result == Failure(Send(x).error)
    ensures Send(x) == Success(SearchJson([])) ==> r.result == Failure(ProjectNotFound(key))
    ensures r.result.Success? ==> x.body.SearchJson? && r.result.value == x.body.components[0]
  {
    var q := ReadProjectRequest(key);
    match Send(x)
    case Failure(e) => Run([q], Failure(e))
    case Success(b) =>
      if !b.SearchJson? then Run([q], Failure(DecodeFailed))
      else if |b.components| == 0 then Run([q], Failure(ProjectNotFound(key)))
      else Run([q], Success(b.components[0]))
  }

  function UpdateProjectRequest(key: string, name: string, visibility: string, tags: seq<string>): (q: Request)
    ensures q.verb == Post && q.path == "projects/update"
    ensures q.params.Keys
         == {"project"}
          + (if name != "" then {"name"} else {})
          + (if visibility != "" then {"visibility"} else {})
          + (if |tags| > 0 then {"tags"} else {})
    ensures q.params["project"] == key
    ensures "name" in q.params ==> q.params["name"] == name
    ensures "visibility" in q.params ==> q.params["visibility"] == visibility
    ensures "tags" in q.params ==> q.params["tags"] == Join(tags, ',')
  {
    var base := map["project" := key];
    var withName := if name != "" then base["name" := name] else base;
    var withVisibility := if visibility != "" then withName["visibility" := visibility] else withName;
    var params := if |tags| > 0 then withVisibility["tags" := Join(tags, ',')] else withVisibility;
    Request(Post, "projects/update", AProject, params)
  }

  function UpdateProject(key: string, name: string, visibility: string, tags: seq<string>, x: Exchange): (r: Run<Project>)
    ensures r.calls == [UpdateProjectRequest(key, name, visibility, tags)]
    ensures r.result.Success? <==> Accepted(r.calls[0], x)
    ensures r.result.Failure? ==> r.result.error == Rejection(x)
    ensures Send(x).Failure? ==> r.result == Failure(Send(x).error)
    ensures r.result.Success? ==> x.body == ProjectJson(r.result.value)
  {
    var run := Issue(UpdateProjectRequest(key, name, visibility, tags), x);
    Run(run.calls, if run.result.Success? then Success(run.result.value.project) else Failure(run.result.error))
  }

  function DeleteProjectRequest(key: string): (q: Request)
    ensures q.verb == Post && q.path == "projects/delete"
    ensures q.params == map["project" := key]
  {
    Request(Post, "projects/delete", Nothing, map["project" := key])
  }

  /** `DeleteProject` reads no body: only the transport can fail it. */
  function DeleteProject(key: string, x: Exchange): (r: Run<()>)
    ensures r.calls == [DeleteProjectRequest(key)]
    ensures r.result.Success? <==> Send(x).Success?
    ensures r.result.Success? <==> Accepted(r.calls[0], x)
  {
    var run := Issue(DeleteProjectRequest(key), x);
    Run(run.calls, if run.result.Success? then Success(()) else Failure(run.result.error))
  }

  /** The receiver recovers the tag list from the comma-joined value, so
      the encoding is faithful whenever no tag contains a comma. */
  lemma ProjectTagsDecode(name: string, key: string, visibility: string, mainBranch: string, tags: seq<string>)
    requires Separable(tags, ',')
    ensures var q := CreateProjectRequest(name, key, visibility, mainBranch, tags);
            ("tags" in q.params <==> |tags| > 0)
            && ("tags" in q.params ==> Split(q.params["tags"], ',') == tags)
    ensures var q := UpdateProjectRequest(key, name, visibility, tags);
            ("tags" in q.params <==> |tags| > 0)
            && ("tags" in q.params ==> Split(q.params["tags"], ',') == tags)
  {
    if |tags| > 0 {
      SplitJoin(tags, ',');
    }
  }

  // ----------------------------------------------------------- quality gates

  function CreateQualityGateRequest(name: string): (q: Request)
    ensures q.verb == Post && q.path == "qualitygates/create"
    ensures q.params == map["name" := name]
  {
    Request(Post, "qualitygates/create", AGate, map["name" := name])
  }

  function CreateQualityGate(name: string, x: Exchange): (r: Run<QualityGate>)
    ensures r.calls == [CreateQualityGateRequest(name)]
    ensures r.result.Success? <==> Accepted(r.calls[0], x)
    ensures Send(x).Failure? ==> r.result == Failure(Send(x).error)
    ensures r.result.Success? ==> x.body == GateJson(r.result.value)
  {
    var run := Issue(CreateQualityGateRequest(name), x);
    Run(run.calls, if run.result.Success? then Success(run.result.value.gate) else Failure(run.result.error))
  }

  /** Exactly gateId, metric, op and error: a warning threshold is never sent. */
  function CreateConditionRequest(gateId: string, metric: string, op: string, error: string): (q: Request)
    ensures q.verb == Post && q.path == "qualitygates/create_condition"
    ensures q.params.Keys == {"gateId", "metric", "op", "error"}
    ensures q.params["gateId"] == gateId && q.params["metric"] == metric
    ensures q.params["op"] == op && q.params["error"] == error
  {
    Request(Post, "qualitygates/create_condition", ACondition,
      map["gateId" := gateId, "metric" := metric, "op" := op, "error" := error])
  }

  function CreateQualityGateCondition(gateId: string, metric: string, op: string, error: string, x: Exchange): (r: Run<Condition>)
    ensures r.calls == [CreateConditionRequest(gateId, metric, op, error)]
    ensures r.result.Success? <==> Accepted(r.calls[0], x)
    ensures Send(x).Failure? ==> r.result == Failure(Send(x).error)
    ensures r.result.Success? ==> x.body == ConditionJson(r.result.value)
  {
    var run := Issue(CreateConditionRequest(gateId, metric, op, error), x);
    Run(run.calls, if run.result.Success? then Success(run.result.value.condition) else Failure(run.result.error))
  }

  function ReadQualityGateRequest(id: string): (q: Request)
    ensures q.verb == Get && q.path == "qualitygates/show"
    ensures q.params == map["id" := id]
  {
    Request(Get, "qualitygates/show", AGate, map["id" := id])
  }

  function ReadQualityGate(id: string, x: Exchange): (r: Run<QualityGate>)
    ensures r.calls == [ReadQualityGateRequest(id)]
    ensures r.result.Success? <==> Accepted(r.calls[0], x)
    ensures Send(x).Failure? ==> r.result == Failure(Send(x).error)
    ensures r.result.Success? ==> x.body == GateJson(r.result.value)
  {
    var run := Issue(ReadQualityGateRequest(id), x);
    Run(run.calls, if run.result.Success? then Success(run.result.value.gate) else Failure(run.result.error))
  }

  function UpdateQualityGateRequest(id: string, name: string): (q: Request)
    ensures q.verb == Post && q.path == "qualitygates/update"
    ensures q.params == map["id" := id, "name" := name]
  {
    Request(Post, "qualitygates/update", AGate, map["id" := id, "name" := name])
  }

  function UpdateQualityGate(id: string, name: string, x: Exchange): (r: Run<QualityGate>)
    ensures r.calls == [UpdateQualityGateRequest(id, name)]
    ensures r.result.Success? <==> Accepted(r.calls[0], x)
    ensures Send(x).Failure? ==> r.result == Failure(Send(x).error)
    ensures r.result.Success? ==> x.body == GateJson(r.result.value)
  {
    var run := Issue(UpdateQualityGateRequest(id, name), x);
    Run(run.calls, if run.result.Success? then Success(run.result.value.gate) else Failure(run.result.error))
  }

  function DeleteQualityGateRequest(id: string): (q: Request)
    ensures q.verb == Post && q.path == "qualitygates/delete"
    ensures q.params == map["id" := id]
  {
    Request(Post, "qualitygates/delete", Nothing, map["id" := id])
  }

  function DeleteQualityGate(id: string, x: Exchange): (r: Run<()>)
    ensures r.calls == [DeleteQualityGateRequest(id)]
    ensures r.result.Success? <==> Send(x).Success?
    ensures r.result.Success? <==> Accepted(r.calls[0], x)
  {
    var run := Issue(DeleteQualityGateRequest(id), x);
    Run(run.calls, if run.result.Success? then Success(()) else Failure(run.result.error))
  }

  /** The condition delete the quality-gate resource calls. The client file
      defines no such method; the request shape is SonarQube's
      `qualitygates/delete_condition` endpoint, keyed by the condition id. */
  function DeleteConditionRequest(id: string): (q: Request)
    ensures q.verb == Post && q.path == "qualitygates/delete_condition"
    ensures q.params == map["id" := id]
  {
    Request(Post, "qualitygates/delete_condition", Nothing, map["id" := id])
  }

  function DeleteQualityGateCondition(id: string, x: Exchange): (r: Run<()>)
    ensures r.calls == [DeleteConditionRequest(id)]
    ensures r.result.Success? <==> Accepted(r.calls[0], x)
  {
    var run := Issue(DeleteConditionRequest(id), x);
    Run(run.calls, if run.result.Success? then Success(()) else Failure(run.result.error))
  }
}
