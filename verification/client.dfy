/** The client package's shared vocabulary: the entities it exchanges with
    SonarQube, the request it sends, the transport (`doRequest`) that turns
    a reply into a body or an error, and the abort-on-first-error discipline
    every multi-call operation follows.

    The remote service is an oracle: a run of an operation is given the
    sequence of replies the service (and the network) produce, one per
    request in issue order. A run that issues more requests than there are
    replies sees the missing ones as `NoResponse`. */
module Client {
  import opened Wrappers

  /** `url.Values` after `Set` calls: `Set` overwrites, so a map. */
  type Params = map<string, string>

  datatype Verb = Get | Post

  /** What the caller of `doRequest` decodes a successful body into: each
      client method decodes into one fixed struct, or reads no body. */
  datatype Shape = Nothing | AProject | AComponents | AGate | ACondition | APortfolio

  /** One call of `doRequest(method, path, params)` by a client method that
      expects a body of shape `expects`. */
  datatype Request = Request(verb: Verb, path: string, expects: Shape, params: Params)

  datatype Project = Project(
    key: string,
    name: string,
    visibility: string,
    mainBranch: string,
    tags: seq<string>,
    qualifier: string,
    description: string)

  datatype Condition = Condition(id: string, metric: string, op: string, error: string, warning: string)

  datatype QualityGate = QualityGate(id: string, name: string, conditions: seq<Condition>, isDefault: bool)

  datatype PortfolioSelection = PortfolioSelection(
    mode: string,
    projects: seq<string>,
    projectPattern: string,
    branchPattern: string)

  /** `minCoverage` and `maxDuplications` are Go `float64`s, held as the
      exact real they denote. */
  datatype PortfolioCompliance = PortfolioCompliance(
    minQualityGateStatus: string,
    minCoverage: real,
    maxDuplications: real,
    maxIssues: int,
    requiredRules: seq<string>)

  datatype PortfolioMetric = PortfolioMetric(operator: string, value: string)

  /** A nil `Metrics` map and an empty one behave alike, so both are `map[]`. */
  datatype PortfolioFilters = PortfolioFilters(
    languages: seq<string>,
    tags: seq<string>,
    qualityGates: seq<string>,
    compliance: PortfolioCompliance,
    metrics: map<string, PortfolioMetric>)

  datatype Portfolio = Portfolio(
    key: string,
    name: string,
    description: string,
    selection: PortfolioSelection,
    filters: PortfolioFilters)

  /** Go's zero values. */
  const NoCompliance := PortfolioCompliance("", 0.0, 0.0, 0, [])
  const NoFilters := PortfolioFilters([], [], [], NoCompliance, map[])

  /** A reply body: the entity the JSON decoder produced, or text that does
      not decode. */
  datatype Body =
    | NoContent
    | ProjectJson(project: Project)
    | SearchJson(components: seq<Project>)
    | GateJson(gate: QualityGate)
    | ConditionJson(condition: Condition)
    | PortfolioJson(portfolio: Portfolio)
    | Malformed

  /** What the network delivers for one request after the retry policy has
      run its course: nothing (the request could not be built, or every
      attempt failed), or a final HTTP status and body. */
  datatype Exchange = NoResponse | Response(status: int, body: Body)

  type Replies = seq<Exchange>

  /** The reply to the request issued at position `i` of a run. */
  function ReplyAt(rs: Replies, i: nat): Exchange
  {
    if i < |rs| then rs[i] else NoResponse
  }

  datatype Error =
    | RequestFailed
    | ApiError(status: int)
    | DecodeFailed
    | ProjectNotFound(key: string)

  /** `doRequest`: a status of 400 or more is an error, never a body. */
  function Send(x: Exchange): (r: Result<Body, Error>)
    ensures r.Success? <==> x.Response? && x.status < 400
    ensures r.Success? ==> r.value == x.body
    ensures x.Response? && x.status >= 400 ==> r == Failure(ApiError(x.status))
  {
    match x
    case NoResponse => Failure(RequestFailed)
    case Response(status, body) =>
      if status >= 400 then Failure(ApiError(status)) else Success(body)
  }

  /** The body decodes into the expected shape; a project search must also
      have found something. */
  predicate Fits(shape: Shape, b: Body)
  {
    match shape
    case Nothing => true
    case AProject => b.ProjectJson?
    case AComponents => b.SearchJson? && |b.components| > 0
    case AGate => b.GateJson?
    case ACondition => b.ConditionJson?
    case APortfolio => b.PortfolioJson?
  }

  /** The client call that issued `q` returns without error on reply `x`. */
  predicate Accepted(q: Request, x: Exchange)
  {
    Send(x).Success? && Fits(q.expects, x.body)
  }

  /** The requests a run issued and what it returned. */
  datatype Run<T> = Run(calls: seq<Request>, result: Result<T, Error>)

  /** What a resource function of the provider leaves behind: the requests
      it issued, the resource state it saved, and the error diagnostic it
      returned, if any. */
  datatype Outcome<S> = Outcome(calls: seq<Request>, state: S, error: Option<Error>)

  /** Issues `q` and hands back the body of an accepted reply. */
  function Issue(q: Request, x: Exchange): (r: Run<Body>)
    ensures r.calls == [q]
    ensures r.result.Success? <==> Accepted(q, x)
    ensures r.result.Success? ==> r.result.value == x.body
    ensures r.result.Failure? ==> r.result.error == Rejection(x)
  {
    match Send(x)
    case Failure(e) => Run([q], Failure(e))
    case Success(b) => Run([q], if Fits(q.expects, b) then Success(b) else Failure(DecodeFailed))
  }

  /** The error a rejected call reports: the transport or status error when
      there is one, otherwise the body did not decode. */
  function Rejection(x: Exchange): Error
  {
    if Send(x).Failure? then Send(x).error else DecodeFailed
  }

  /** `calls` is what executing `plan` with abort-on-first-error issues when
      the request at plan position `i` is answered by `ReplyAt(rs, at + i)`,
      and `ok` says whether the run got through: the calls are a prefix of
      the plan, each call but the last was accepted, a successful run issued
      the whole plan with every call accepted, and a failed run stopped right
      after its first rejected call. */
  predicate FollowsPlan(plan: seq<Request>, rs: Replies, at: nat, calls: seq<Request>, ok: bool)
  {
    && |calls| <= |plan|
    && calls == plan[..|calls|]
    && (forall i :: 0 <= i < |calls| - 1 ==> Accepted(calls[i], ReplyAt(rs, at + i)))
    && (ok ==> |calls| == |plan| && forall i :: 0 <= i < |calls| ==> Accepted(calls[i], ReplyAt(rs, at + i)))
    && (!ok ==> |calls| > 0 && !Accepted(calls[|calls| - 1], ReplyAt(rs, at + |calls| - 1)))
  }

  /** A plan has exactly one run: the abort discipline determines the calls. */
  lemma FollowsPlanUnique(plan: seq<Request>, rs: Replies, at: nat, c1: seq<Request>, ok1: bool, c2: seq<Request>, ok2: bool)
    requires FollowsPlan(plan, rs, at, c1, ok1)
    requires FollowsPlan(plan, rs, at, c2, ok2)
    ensures c1 == c2 && ok1 == ok2
  {
  }

  /** One request alone follows the one-step plan. */
  lemma Single(q: Request, rs: Replies, at: nat)
    ensures FollowsPlan([q], rs, at, [q], Accepted(q, ReplyAt(rs, at)))
  {
  }

  /** A successful run of one plan followed by a run of the next is a run of
      the concatenated plan. */
  lemma Chain(p1: seq<Request>, p2: seq<Request>, rs: Replies, at: nat, c1: seq<Request>, c2: seq<Request>, ok2: bool)
    requires FollowsPlan(p1, rs, at, c1, true)
    requires FollowsPlan(p2, rs, at + |p1|, c2, ok2)
    ensures FollowsPlan(p1 + p2, rs, at, c1 + c2, ok2)
  {
    var c := c1 + c2;
    assert c == (p1 + p2)[..|c|];
    forall i | 0 <= i < |c| && (i < |c| - 1 || ok2)
      ensures Accepted(c[i], ReplyAt(rs, at + i))
    {
      if i >= |c1| {
        assert c[i] == c2[i - |c1|];
        assert at + i == at + |p1| + (i - |c1|);
      }
    }
    if !ok2 {
      assert c[|c| - 1] == c2[|c2| - 1];
      assert at + |c| - 1 == at + |p1| + |c2| - 1;
    }
  }

  /** A failed run of a plan is a failed run of any extension of it. */
  lemma StopEarly(p1: seq<Request>, p2: seq<Request>, rs: Replies, at: nat, c1: seq<Request>)
    requires FollowsPlan(p1, rs, at, c1, false)
    ensures FollowsPlan(p1 + p2, rs, at, c1, false)
  {
    assert c1 == (p1 + p2)[..|c1|];
  }

  /** Issue the requests of `plan` in order, the one at position `i` being
      answered by `ReplyAt(rs, at + i)`, and stop at the first that fails:
      the shape of every `if err != nil { return err }` chain in the client.
      The error returned is the one the failing call reported. */
  function Perform(plan: seq<Request>, rs: Replies, at: nat): (r: Run<()>)
    ensures FollowsPlan(plan, rs, at, r.calls, r.result.Success?)
    ensures r.result.Failure? ==> r.result.error == Rejection(ReplyAt(rs, at + |r.calls| - 1))
    decreases |plan|
  {
    if plan == [] then Run([], Success(()))
    else
      var head := Issue(plan[0], ReplyAt(rs, at));
      if head.result.Failure? then
        Run(head.calls, Failure(head.result.error))
      else
        var rest := Perform(plan[1..], rs, at + 1);
        Single(plan[0], rs, at);
        Chain([plan[0]], plan[1..], rs, at, head.calls, rest.calls, rest.result.Success?);
        assert [plan[0]] + plan[1..] == plan;
        Run(head.calls + rest.calls, rest.result)
  }
}
