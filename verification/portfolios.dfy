/** The portfolio calls of the client: the parameters of
    `configure_selection` and `configure_filters`, and the fixed call
    sequence of portfolio create and update. */
module Portfolios {
  import opened Wrappers
  import opened Text
  import opened Client

  // ------------------------------------------------------ custom metrics

  /** The parameter carrying a custom metric's operator. */
  function OperatorKey(metric: string): string
  {
    "metric_" + metric + "_operator"
  }

  /** The parameter carrying a custom metric's threshold value. */
  function ValueKey(metric: string): string
  {
    "metric_" + metric + "_value"
  }

  /** The last character of a parameter name. */
  function Last(k: string): char
  {
    if |k| == 0 then ' ' else k[|k| - 1]
  }

  predicate IsMetricKey(k: string)
  {
    |k| >= 7 && k[..7] == "metric_"
  }

  /** Recovers the metric name from either of its parameter names. */
  function MetricNameOf(k: string): string
  {
    if |k| >= 16 && Last(k) == 'r' then k[7..|k| - 9]
    else if |k| >= 13 then k[7..|k| - 6]
    else k
  }

  lemma MetricKeyShape(metric: string)
    ensures IsMetricKey(OperatorKey(metric)) && IsMetricKey(ValueKey(metric))
    ensures Last(OperatorKey(metric)) == 'r' && Last(ValueKey(metric)) == 'e'
    ensures MetricNameOf(OperatorKey(metric)) == metric
    ensures MetricNameOf(ValueKey(metric)) == metric
  {
    var o := OperatorKey(metric);
    var v := ValueKey(metric);
    assert o[..7] == "metric_" && v[..7] == "metric_";
    assert o[7..|o| - 9] == metric;
    assert v[7..|v| - 6] == metric;
  }

  /** Distinct metric names never produce the same parameter name: each
      naming scheme is injective, and the two never meet because an
      operator parameter ends in 'r' and a value parameter in 'e'. */
  lemma MetricKeysDistinct(a: string, b: string)
    ensures OperatorKey(a) == OperatorKey(b) ==> a == b
    ensures ValueKey(a) == ValueKey(b) ==> a == b
    ensures OperatorKey(a) != ValueKey(b)
  {
    MetricKeyShape(a);
    MetricKeyShape(b);
  }

  function OperatorKeys(names: set<string>): set<string>
  {
    set m | m in names :: OperatorKey(m)
  }

  function ValueKeys(names: set<string>): set<string>
  {
    set m | m in names :: ValueKey(m)
  }

  /** The value a metric parameter name carries, read back through the
      metric the name belongs to. */
  function MetricParamValue(metrics: map<string, PortfolioMetric>, k: string): string
  {
    var m := MetricNameOf(k);
    if m !in metrics then "" else if Last(k) == 'r' then metrics[m].operator else metrics[m].value
  }

  lemma OperatorParamValue(metrics: map<string, PortfolioMetric>, m: string)
    requires m in metrics
    ensures OperatorKey(m) in OperatorKeys(metrics.Keys)
    ensures MetricParamValue(metrics, OperatorKey(m)) == metrics[m].operator
  {
    MetricKeyShape(m);
  }

  lemma ValueParamValue(metrics: map<string, PortfolioMetric>, m: string)
    requires m in metrics
    ensures ValueKey(m) in ValueKeys(metrics.Keys)
    ensures MetricParamValue(metrics, ValueKey(m)) == metrics[m].value
  {
    MetricKeyShape(m);
  }

  /** The two parameters each custom metric contributes. */
  function MetricParams(metrics: map<string, PortfolioMetric>): (r: Params)
    ensures r.Keys == OperatorKeys(metrics.Keys) + ValueKeys(metrics.Keys)
    ensures forall m :: m in metrics ==> OperatorKey(m) in r && r[OperatorKey(m)] == metrics[m].operator
    ensures forall m :: m in metrics ==> ValueKey(m) in r && r[ValueKey(m)] == metrics[m].value
  {
    var r := map k | k in OperatorKeys(metrics.Keys) + ValueKeys(metrics.Keys) :: MetricParamValue(metrics, k);
    assert forall m :: m in metrics ==> OperatorKey(m) in r && r[OperatorKey(m)] == metrics[m].operator by {
      forall m | m in metrics ensures OperatorKey(m) in r && r[OperatorKey(m)] == metrics[m].operator {
        OperatorParamValue(metrics, m);
      }
    }
    assert forall m :: m in metrics ==> ValueKey(m) in r && r[ValueKey(m)] == metrics[m].value by {
      forall m | m in metrics ensures ValueKey(m) in r && r[ValueKey(m)] == metrics[m].value {
        ValueParamValue(metrics, m);
      }
    }
    r
  }

  lemma {:induction false} OperatorKeysSize(names: set<string>)
    ensures |OperatorKeys(names)| == |names|
    decreases |names|
  {
    if names != {} {
      var m :| m in names;
      var rest := names - {m};
      OperatorKeysSize(rest);
      assert OperatorKeys(names) == OperatorKeys(rest) + {OperatorKey(m)};
      if OperatorKey(m) in OperatorKeys(rest) {
        var m' :| m' in rest && OperatorKey(m') == OperatorKey(m);
        MetricKeysDistinct(m, m');
      }
    }
  }

  lemma {:induction false} ValueKeysSize(names: set<string>)
    ensures |ValueKeys(names)| == |names|
    decreases |names|
  {
    if names != {} {
      var m :| m in names;
      var rest := names - {m};
      ValueKeysSize(rest);
      assert ValueKeys(names) == ValueKeys(rest) + {ValueKey(m)};
      if ValueKey(m) in ValueKeys(rest) {
        var m' :| m' in rest && ValueKey(m') == ValueKey(m);
        MetricKeysDistinct(m, m');
      }
    }
  }

  /** Each custom metric adds exactly two parameters of its own: no two
      metrics, and no operator and value, share a parameter name. */
  lemma MetricParamsCount(metrics: map<string, PortfolioMetric>)
    ensures |MetricParams(metrics)| == 2 * |metrics|
  {
    OperatorKeysSize(metrics.Keys);
    ValueKeysSize(metrics.Keys);
    forall k | k in OperatorKeys(metrics.Keys) ensures k !in ValueKeys(metrics.Keys) {
      var a :| a in metrics && k == OperatorKey(a);
      if k in ValueKeys(metrics.Keys) {
        var b :| b in metrics && k == ValueKey(b);
        MetricKeysDistinct(a, b);
      }
    }
    assert |MetricParams(metrics).Keys| == |OperatorKeys(metrics.Keys)| + |ValueKeys(metrics.Keys)|;
  }

  /** `k` is the operator or value parameter of a metric named in `names`. */
  predicate AddedFor(k: string, names: set<string>)
  {
    var m := MetricNameOf(k);
    m in names && (k == OperatorKey(m) || k == ValueKey(m))
  }

  /** What the metrics loop has achieved after visiting the metrics in
      `done`: each has its two parameters, every other parameter is as it
      was, and every added name is the operator or value name of a visited
      metric. */
  predicate MetricsSet(out: Params, params: Params, metrics: map<string, PortfolioMetric>, done: set<string>)
  {
    && done <= metrics.Keys
    && (forall m :: m in done ==> OperatorKey(m) in out && out[OperatorKey(m)] == metrics[m].operator)
    && (forall m :: m in done ==> ValueKey(m) in out && out[ValueKey(m)] == metrics[m].value)
    && (forall k :: k in params && !IsMetricKey(k) ==> k in out && out[k] == params[k])
    && (forall k :: k in out && k !in params ==> AddedFor(k, done))
  }

  /** One iteration of the metrics loop keeps `MetricsSet`. */
  lemma MetricsSetStep(before: Params, params: Params, metrics: map<string, PortfolioMetric>, done: set<string>, m: string)
    requires MetricsSet(before, params, metrics, done)
    requires m in metrics && m !in done
    ensures MetricsSet(before[OperatorKey(m) := metrics[m].operator][ValueKey(m) := metrics[m].value], params, metrics, done + {m})
  {
    VisitedStep(before, metrics, done, m);
    FrameStep(before, params, m, metrics[m]);
    AddedStep(before, params, done, m, metrics[m]);
  }

  /** Metrics visited earlier keep their values. */
  lemma VisitedStep(before: Params, metrics: map<string, PortfolioMetric>, done: set<string>, m: string)
    requires m in metrics && done <= metrics.Keys
    requires forall d :: d in done ==> OperatorKey(d) in before && before[OperatorKey(d)] == metrics[d].operator
    requires forall d :: d in done ==> ValueKey(d) in before && before[ValueKey(d)] == metrics[d].value
    ensures var after := before[OperatorKey(m) := metrics[m].operator][ValueKey(m) := metrics[m].value];
            && (forall d :: d in done + {m} ==> OperatorKey(d) in after && after[OperatorKey(d)] == metrics[d].operator)
            && (forall d :: d in done + {m} ==> ValueKey(d) in after && after[ValueKey(d)] == metrics[d].value)
  {
    var after := before[OperatorKey(m) := metrics[m].operator][ValueKey(m) := metrics[m].value];
    MetricKeysDistinct(m, m);
    forall d | d in done + {m}
      ensures OperatorKey(d) in after && after[OperatorKey(d)] == metrics[d].operator
      ensures ValueKey(d) in after && after[ValueKey(d)] == metrics[d].value
    {
      MetricKeysDistinct(d, m);
      MetricKeysDistinct(m, d);
    }
  }

  /** Parameters that are not metric parameters are untouched. */
  lemma FrameStep(before: Params, params: Params, m: string, metric: PortfolioMetric)
    requires forall k :: k in params && !IsMetricKey(k) ==> k in before && before[k] == params[k]
    ensures var after := before[OperatorKey(m) := metric.operator][ValueKey(m) := metric.value];
            forall k :: k in params && !IsMetricKey(k) ==> k in after && after[k] == params[k]
  {
    MetricKeyShape(m);
  }

  /** Setting metric `m`'s two parameters adds no other name. */
  lemma AddedStep(before: Params, params: Params, done: set<string>, m: string, metric: PortfolioMetric)
    requires forall k :: k in before && k !in params ==> AddedFor(k, done)
    ensures var after := before[OperatorKey(m) := metric.operator][ValueKey(m) := metric.value];
            forall k :: k in after && k !in params ==> AddedFor(k, done + {m})
  {
    var after := before[OperatorKey(m) := metric.operator][ValueKey(m) := metric.value];
    MetricKeyShape(m);
    forall k | k in after && k !in params ensures AddedFor(k, done + {m}) {
      if k != OperatorKey(m) && k != ValueKey(m) {
        assert k in before && AddedFor(k, done);
      }
    }
  }

  /** The `range filters.Metrics` loop. Go visits the map in an unspecified
      order; because no two metrics share a parameter name, every visiting
      order ends with each metric's operator and value under its own two
      names, every parameter that is not a metric's left as it was, and no
      name added but those. */
  method SetMetricParams(params: Params, metrics: map<string, PortfolioMetric>) returns (out: Params)
    ensures forall m :: m in metrics ==> OperatorKey(m) in out && out[OperatorKey(m)] == metrics[m].operator
    ensures forall m :: m in metrics ==> ValueKey(m) in out && out[ValueKey(m)] == metrics[m].value
    ensures forall k :: k in params && !IsMetricKey(k) ==> k in out && out[k] == params[k]
    ensures forall k :: k in out && k !in params ==> AddedFor(k, metrics.Keys)
    ensures (forall k :: k in params ==> !IsMetricKey(k)) ==> out == params + MetricParams(metrics)
  {
    out := params;
    var done: set<string> := {};
    while done != metrics.Keys
      invariant MetricsSet(out, params, metrics, done)
      decreases |metrics.Keys - done|
    {
      var m :| m in metrics.Keys - done;
      MetricsSetStep(out, params, metrics, done, m);
      out := out[OperatorKey(m) := metrics[m].operator][ValueKey(m) := metrics[m].value];
      done := done + {m};
    }
    if forall k :: k in params ==> !IsMetricKey(k) {
      MetricsSetIsUnion(out, params, metrics);
    }
  }

  /** Once every metric is visited, starting from parameters that hold no
      metric name, the loop's result is the parameters plus `MetricParams`. */
  lemma MetricsSetIsUnion(out: Params, params: Params, metrics: map<string, PortfolioMetric>)
    requires MetricsSet(out, params, metrics, metrics.Keys)
    requires forall k :: k in params ==> !IsMetricKey(k)
    ensures out == params + MetricParams(metrics)
  {
    var union := params + MetricParams(metrics);
    UnionHasResult(out, params, metrics);
    ResultHasUnion(out, params, metrics);
    assert out.Keys == union.Keys;
  }

  lemma UnionHasResult(out: Params, params: Params, metrics: map<string, PortfolioMetric>)
    requires MetricsSet(out, params, metrics, metrics.Keys)
    requires forall k :: k in params ==> !IsMetricKey(k)
    ensures forall k :: k in out ==> k in params + MetricParams(metrics) && (params + MetricParams(metrics))[k] == out[k]
  {
    var all := MetricParams(metrics);
    MetricParamsAreMetricKeys(metrics);
    forall k | k in out ensures k in params + all && (params + all)[k] == out[k] {
      if k !in params {
        var m := MetricNameOf(k);
        assert AddedFor(k, metrics.Keys);
        if k == OperatorKey(m) {
          OperatorParamValue(metrics, m);
        } else {
          ValueParamValue(metrics, m);
        }
      } else {
        assert k !in all;
      }
    }
  }

  lemma ResultHasUnion(out: Params, params: Params, metrics: map<string, PortfolioMetric>)
    requires MetricsSet(out, params, metrics, metrics.Keys)
    requires forall k :: k in params ==> !IsMetricKey(k)
    ensures forall k :: k in params + MetricParams(metrics) ==> k in out
  {
    var all := MetricParams(metrics);
    forall k | k in params + all ensures k in out {
      if k in all {
        if k in OperatorKeys(metrics.Keys) {
          var m :| m in metrics && k == OperatorKey(m);
        } else {
          var m :| m in metrics && k == ValueKey(m);
        }
      }
    }
  }

  // ------------------------------------------------------------- requests

  /** `configurePortfolioSelection`: key and mode always; the projects of a
      MANUAL selection, the patterns of a REGEXP one, nothing else. */
  function SelectionRequest(key: string, selection: PortfolioSelection): (q: Request)
    ensures q.verb == Post && q.path == "portfolios/configure_selection"
    ensures q.params.Keys <= {"key", "mode", "projects", "projectPattern", "branchPattern"}
    ensures "key" in q.params && q.params["key"] == key
    ensures "mode" in q.params && q.params["mode"] == selection.mode
    ensures "projects" in q.params <==> selection.mode == "MANUAL" && |selection.projects| > 0
    ensures "projects" in q.params ==> q.params["projects"] == Join(selection.projects, ',')
    ensures "projectPattern" in q.params <==> selection.mode == "REGEXP" && selection.projectPattern != ""
    ensures "projectPattern" in q.params ==> q.params["projectPattern"] == selection.projectPattern
    ensures "branchPattern" in q.params <==> selection.mode == "REGEXP" && selection.branchPattern != ""
    ensures "branchPattern" in q.params ==> q.params["branchPattern"] == selection.branchPattern
    ensures selection.mode != "MANUAL" && selection.mode != "REGEXP" ==>
              q.params == map["key" := key, "mode" := selection.mode]
  {
    var base := map["key" := key, "mode" := selection.mode];
    var params :=
      match selection.mode
      case "MANUAL" =>
        if |selection.projects| > 0 then base["projects" := Join(selection.projects, ',')] else base
      case "REGEXP" =>
        var withProject := if selection.projectPattern != "" then base["projectPattern" := selection.projectPattern] else base;
        if selection.branchPattern != "" then withProject["branchPattern" := selection.branchPattern] else withProject
      case _ => base;
    Request(Post, "portfolios/configure_selection", Nothing, params)
  }

  /** The parameter names `configurePortfolioFilters` may send besides the
      custom-metric pairs. */
  const FilterNames: set<string> := {"key", "languages", "tags", "qualityGates", "minQualityGateStatus",
                                     "minCoverage", "maxDuplications", "maxIssues", "requiredRules"}

  lemma FilterNamesAreNotMetricKeys()
    ensures forall k :: k in FilterNames ==> !IsMetricKey(k)
  {
    assert "minQualityGateStatus"[..7] == "minQual";
    assert "minCoverage"[..7] == "minCove";
    assert "maxDuplications"[..7] == "maxDupl";
    assert "maxIssues"[..7] == "maxIssu";
    assert "languages"[..7] == "languag";
    assert "qualityGates"[..7] == "quality";
    assert "requiredRules"[..7] == "require";
  }

  /** Parameter `name` is sent exactly when `present`, and then carries `value`. */
  predicate SentWhen(params: Params, name: string, present: bool, value: string)
  {
    && (name in params <==> present)
    && (name in params ==> params[name] == value)
  }

  /** The lists `configurePortfolioFilters` sends, each only when non-empty. */
  predicate ListFilterParams(params: Params, key: string, filters: PortfolioFilters)
  {
    && "key" in params && params["key"] == key
    && SentWhen(params, "languages", |filters.languages| > 0, Join(filters.languages, ','))
    && SentWhen(params, "tags", |filters.tags| > 0, Join(filters.tags, ','))
    && SentWhen(params, "qualityGates", |filters.qualityGates| > 0, Join(filters.qualityGates, ','))
  }

  /** The compliance settings `configurePortfolioFilters` sends: the gate
      status when set, the numbers when positive, floats with two decimals. */
  predicate ComplianceFilterParams(params: Params, c: PortfolioCompliance)
  {
    && SentWhen(params, "minQualityGateStatus", c.minQualityGateStatus != "", c.minQualityGateStatus)
    && ("minCoverage" in params <==> c.minCoverage > 0.0)
    && ("minCoverage" in params ==> params["minCoverage"] == FormatFixed2(c.minCoverage))
    && ("maxDuplications" in params <==> c.maxDuplications > 0.0)
    && ("maxDuplications" in params ==> params["maxDuplications"] == FormatFixed2(c.maxDuplications))
    && ("maxIssues" in params <==> c.maxIssues > 0)
    && ("maxIssues" in params ==> params["maxIssues"] == NatToString(c.maxIssues))
    && SentWhen(params, "requiredRules", |c.requiredRules| > 0, Join(c.requiredRules, ','))
  }

  /** What `configurePortfolioFilters` sends besides the custom metrics. */
  predicate FixedFilterParams(params: Params, key: string, filters: PortfolioFilters)
  {
    ListFilterParams(params, key, filters) && ComplianceFilterParams(params, filters.compliance)
  }

  const ListNames: set<string> := {"key", "languages", "tags", "qualityGates"}

  function ListParams(key: string, filters: PortfolioFilters): (params: Params)
    ensures params.Keys <= ListNames
    ensures ListFilterParams(params, key, filters)
  {
    var p0 := map["key" := key];
    var p1 := if |filters.languages| > 0 then p0["languages" := Join(filters.languages, ',')] else p0;
    var p2 := if |filters.tags| > 0 then p1["tags" := Join(filters.tags, ',')] else p1;
    if |filters.qualityGates| > 0 then p2["qualityGates" := Join(filters.qualityGates, ',')] else p2
  }

  function ComplianceParams(c: PortfolioCompliance): (params: Params)
    ensures params.Keys <= FilterNames - ListNames
    ensures ComplianceFilterParams(params, c)
  {
    var p4 := if c.minQualityGateStatus != "" then map["minQualityGateStatus" := c.minQualityGateStatus] else map[];
    var p5 := if c.minCoverage > 0.0 then p4["minCoverage" := FormatFixed2(c.minCoverage)] else p4;
    var p6 := if c.maxDuplications > 0.0 then p5["maxDuplications" := FormatFixed2(c.maxDuplications)] else p5;
    var p7 := if c.maxIssues > 0 then p6["maxIssues" := NatToString(c.maxIssues)] else p6;
    if |c.requiredRules| > 0 then p7["requiredRules" := Join(c.requiredRules, ',')] else p7
  }

  /** The fixed part of `configurePortfolioFilters`. */
  function ComplianceAndListParams(key: string, filters: PortfolioFilters): (params: Params)
    ensures params.Keys <= FilterNames
    ensures FixedFilterParams(params, key, filters)
  {
    var lists := ListParams(key, filters);
    var compliance := ComplianceParams(filters.compliance);
    ListParamsKept(lists, compliance, key, filters);
    ComplianceParamsKept(lists, compliance, filters.compliance);
    lists + compliance
  }

  /** Adding parameters with none of the list names keeps the lists as sent. */
  lemma ListParamsKept(lists: Params, other: Params, key: string, filters: PortfolioFilters)
    requires ListFilterParams(lists, key, filters)
    requires other.Keys !! ListNames
    ensures ListFilterParams(lists + other, key, filters)
  {
    assert "key" !in other && "languages" !in other && "tags" !in other && "qualityGates" !in other;
  }

  /** Adding compliance parameters to parameters that hold none of their
      names keeps the compliance settings as sent. */
  lemma ComplianceParamsKept(other: Params, compliance: Params, c: PortfolioCompliance)
    requires ComplianceFilterParams(compliance, c)
    requires other.Keys <= ListNames
    ensures ComplianceFilterParams(other + compliance, c)
  {
    assert "minQualityGateStatus" !in other && "minCoverage" !in other && "maxDuplications" !in other;
    assert "maxIssues" !in other && "requiredRules" !in other;
  }

  lemma MetricParamsAreMetricKeys(metrics: map<string, PortfolioMetric>)
    ensures forall k :: k in MetricParams(metrics) ==> IsMetricKey(k)
  {
    forall k | k in MetricParams(metrics) ensures IsMetricKey(k) {
      if k in OperatorKeys(metrics.Keys) {
        var m :| m in metrics && k == OperatorKey(m);
        MetricKeyShape(m);
      } else {
        var m :| m in metrics && k == ValueKey(m);
        MetricKeyShape(m);
      }
    }
  }

  /** `configurePortfolioFilters`: the fixed parameters as described, each
      custom metric's operator and value under its own two names, and no
      other parameter. */
  function FiltersRequest(key: string, filters: PortfolioFilters): (q: Request)
    ensures q.verb == Post && q.path == "portfolios/configure_filters"
    ensures FixedFilterParams(q.params, key, filters)
    ensures forall m :: m in filters.metrics ==>
              && OperatorKey(m) in q.params && q.params[OperatorKey(m)] == filters.metrics[m].operator
              && ValueKey(m) in q.params && q.params[ValueKey(m)] == filters.metrics[m].value
    ensures forall k :: k in q.params && k !in FilterNames ==> k in MetricParams(filters.metrics)
  {
    var fixed := ComplianceAndListParams(key, filters);
    var metrics := MetricParams(filters.metrics);
    FilterNamesAreNotMetricKeys();
    MetricParamsAreMetricKeys(filters.metrics);
    assert fixed.Keys !! metrics.Keys;
    var params := fixed + metrics;
    assert FixedFilterParams(params, key, filters) by {
      forall n | n in FilterNames ensures (n in params <==> n in fixed) && (n in params ==> params[n] == fixed[n]) {
        assert n !in metrics;
      }
    }
    Request(Post, "portfolios/configure_filters", Nothing, params)
  }

  /** The parameters `configurePortfolioFilters` sends, built as the client
      builds them: the fixed parameters, then the custom-metric loop in
      whatever order the map is visited. Whatever that order, they are the
      parameters `FiltersRequest` describes. */
  method ConfigureFiltersParams(key: string, filters: PortfolioFilters) returns (params: Params)
    ensures params == FiltersRequest(key, filters).params
  {
    var fixed := ComplianceAndListParams(key, filters);
    FilterNamesAreNotMetricKeys();
    params := SetMetricParams(fixed, filters.metrics);
  }

  /** Key and name always, the description only when set. */
  function DescriptionParams(portfolio: Portfolio): (params: Params)
    ensures params.Keys == {"key", "name"} + (if portfolio.description != "" then {"description"} else {})
    ensures params["key"] == portfolio.key && params["name"] == portfolio.name
    ensures "description" in params ==> params["description"] == portfolio.description
  {
    var base := map["key" := portfolio.key, "name" := portfolio.name];
    if portfolio.description != "" then base["description" := portfolio.description] else base
  }

  function CreatePortfolioRequest(portfolio: Portfolio): (q: Request)
    ensures q.verb == Post && q.path == "portfolios/create"
    ensures q.params == DescriptionParams(portfolio)
  {
    Request(Post, "portfolios/create", Nothing, DescriptionParams(portfolio))
  }

  function UpdatePortfolioRequest(portfolio: Portfolio): (q: Request)
    ensures q.verb == Post && q.path == "portfolios/update"
    ensures q.params == DescriptionParams(portfolio)
  {
    Request(Post, "portfolios/update", Nothing, DescriptionParams(portfolio))
  }

  /** The full sequence a portfolio save issues when nothing fails: the
      create or update call, the selection, and the filters in FILTER mode. */
  function SavePlan(first: Request, portfolio: Portfolio): (plan: seq<Request>)
    ensures |plan| == (if portfolio.selection.mode == "FILTER" then 3 else 2)
    ensures plan[0] == first
    ensures plan[1] == SelectionRequest(portfolio.key, portfolio.selection)
    ensures |plan| == 3 ==> plan[2] == FiltersRequest(portfolio.key, portfolio.filters)
  {
    [first, SelectionRequest(portfolio.key, portfolio.selection)]
      + (if portfolio.selection.mode == "FILTER" then [FiltersRequest(portfolio.key, portfolio.filters)] else [])
  }

  /** `CreatePortfolio`: create, then configure the selection, then the
      filters in FILTER mode, each only if everything before it succeeded;
      the first error is returned as reported. */
  function CreatePortfolio(portfolio: Portfolio, rs: Replies): (r: Run<()>)
    ensures FollowsPlan(SavePlan(CreatePortfolioRequest(portfolio), portfolio), rs, 0, r.calls, r.result.Success?)
    ensures r.result.Failure? ==> r.result.error == Rejection(ReplyAt(rs, |r.calls| - 1))
  {
    Perform(SavePlan(CreatePortfolioRequest(portfolio), portfolio), rs, 0)
  }

  /** `UpdatePortfolio`: the same sequence as create, led by the update call. */
  function UpdatePortfolio(portfolio: Portfolio, rs: Replies): (r: Run<()>)
    ensures FollowsPlan(SavePlan(UpdatePortfolioRequest(portfolio), portfolio), rs, 0, r.calls, r.result.Success?)
    ensures r.result.Failure? ==> r.result.error == Rejection(ReplyAt(rs, |r.calls| - 1))
  {
    Perform(SavePlan(UpdatePortfolioRequest(portfolio), portfolio), rs, 0)
  }

  function DeletePortfolioRequest(key: string): (q: Request)
    ensures q.verb == Post && q.path == "portfolios/delete"
    ensures q.params == map["key" := key]
  {
    Request(Post, "portfolios/delete", Nothing, map["key" := key])
  }

  function DeletePortfolio(key: string, x: Exchange): (r: Run<()>)
    ensures r.calls == [DeletePortfolioRequest(key)]
    ensures r.result.Success? <==> Send(x).Success?
  {
    var run := Issue(DeletePortfolioRequest(key), x);
    Run(run.calls, if run.result.Success? then Success(()) else Failure(run.result.error))
  }

  function GetPortfolioRequest(key: string): (q: Request)
    ensures q.verb == Get && q.path == "portfolios/show"
    ensures q.params == map["key" := key]
  {
    Request(Get, "portfolios/show", APortfolio, map["key" := key])
  }

  function GetPortfolio(key: string, x: Exchange): (r: Run<Portfolio>)
    ensures r.calls == [GetPortfolioRequest(key)]
    ensures r.result.Success? <==> Accepted(r.calls[0], x)
    ensures Send(x).Failure? ==> r.result == Failure(Send(x).error)
    ensures r.result.Success? ==> x.body == PortfolioJson(r.result.value)
  {
    var run := Issue(GetPortfolioRequest(key), x);
    Run(run.calls, if run.result.Success? then Success(run.result.value.portfolio) else Failure(run.result.error))
  }
}
