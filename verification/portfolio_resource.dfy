/** The `sonarqube_portfolio` resource: the `selection_mode` validator, the
    per-mode translation of its arguments into a client `Portfolio` (shared
    by create and update), the per-mode read-back, and the expand/flatten
    pair between the `filters` block and `PortfolioFilters`. */
module PortfolioResource {
  import opened Wrappers
  import opened Client
  import opened StringSets
  import opened Portfolios

  // ------------------------------------------------------------- arguments

  /** The `compliance` block as the resource data hands it to the expander:
      a field is `Some` exactly when its key is in the Go map. */
  datatype ComplianceBlock = ComplianceBlock(
    minQualityGateStatus: Option<string>,
    minCoverage: Option<real>,
    maxDuplications: Option<real>,
    maxIssues: Option<int>,
    requiredRules: Option<set<string>>)

  /** The `filters` block likewise; `compliance` is a list of at most one
      block, and `custom_metrics` maps a metric name to its threshold. */
  datatype FiltersBlock = FiltersBlock(
    languages: Option<set<string>>,
    tags: Option<set<string>>,
    qualityGates: Option<set<string>>,
    compliance: Option<seq<ComplianceBlock>>,
    customMetrics: Option<map<string, PortfolioMetric>>)

  /** The resource attributes, with Go's zero values for unset ones. */
  datatype PortfolioData = PortfolioData(
    name: string,
    key: string,
    description: string,
    selectionMode: string,
    projects: set<string>,
    projectPattern: string,
    branchPattern: string,
    filters: seq<FiltersBlock>)

  datatype PortfolioState = PortfolioState(id: string, data: PortfolioData)

  const SelectionModes: set<string> := {"MANUAL", "REGEXP", "FILTER"}

  const SelectionModeError := "selection_mode must be one of MANUAL, REGEXP, or FILTER"

  /** The `selection_mode` validator: no error for the three modes, one
      error for anything else. */
  function ValidateSelectionMode(v: string): (errors: seq<string>)
    ensures errors == [] <==> v in SelectionModes
    ensures errors != [] ==> errors == [SelectionModeError]
  {
    if v != "MANUAL" && v != "REGEXP" && v != "FILTER" then [SelectionModeError] else []
  }

  // ------------------------------------------------------- sets and lists

  /** A set held in the resource data; an absent one reads as empty. */
  function SetOf(v: Option<set<string>>): set<string>
  {
    if v.Some? then v.value else {}
  }

  /** Two ascending lists with the same elements are the same list. */
  lemma {:induction false} AscendingUnique(xs: seq<string>, ys: seq<string>)
    requires Ascending(xs) && Ascending(ys)
    requires Elems(xs) == Elems(ys)
    ensures xs == ys
    decreases |xs|
  {
    if xs != [] {
      assert xs[0] in Elems(xs);
    }
    if ys != [] {
      assert ys[0] in Elems(ys);
    }
    if xs != [] && ys != [] {
      var i :| 0 <= i < |xs| && xs[i] == ys[0];
      var j :| 0 <= j < |ys| && ys[j] == xs[0];
      if i > 0 {
        assert Below(xs[0], ys[0]);
      } else {
        BelowReflexive(xs[0]);
      }
      if j > 0 {
        assert Below(ys[0], xs[0]);
      } else {
        BelowReflexive(ys[0]);
      }
      BelowAntisymmetric(xs[0], ys[0]);
      assert Elems(xs[1..]) == Elems(xs) - {xs[0]} by {
        forall k | 0 <= k < |xs[1..]| ensures xs[1..][k] != xs[0] {
          assert xs[1..][k] == xs[k + 1];
        }
        assert forall k :: 1 <= k < |xs| ==> xs[k] == xs[1..][k - 1];
      }
      assert Elems(ys[1..]) == Elems(ys) - {ys[0]} by {
        forall k | 0 <= k < |ys[1..]| ensures ys[1..][k] != ys[0] {
          assert ys[1..][k] == ys[k + 1];
        }
        assert forall k :: 1 <= k < |ys| ==> ys[k] == ys[1..][k - 1];
      }
      AscendingUnique(xs[1..], ys[1..]);
      assert xs == [xs[0]] + xs[1..];
      assert ys == [ys[0]] + ys[1..];
    }
  }

  /** Listing the elements of an ascending list gives the list back. */
  lemma EnumerateElems(xs: seq<string>)
    requires Ascending(xs)
    ensures Enumerate(Elems(xs)) == xs
  {
    AscendingUnique(Enumerate(Elems(xs)), xs);
  }

  // ---------------------------------------------------------------- expand

  /** `expandPortfolioCompliance`: each present key copied, each absent one
      left at Go's zero value; the rules listed from their set. */
  function ExpandCompliance(c: ComplianceBlock): (r: PortfolioCompliance)
    ensures r.minQualityGateStatus == c.minQualityGateStatus.GetOr("")
    ensures r.minCoverage == c.minCoverage.GetOr(0.0)
    ensures r.maxDuplications == c.maxDuplications.GetOr(0.0)
    ensures r.maxIssues == c.maxIssues.GetOr(0)
    ensures Elems(r.requiredRules) == SetOf(c.requiredRules) && Ascending(r.requiredRules)
  {
    PortfolioCompliance(
      c.minQualityGateStatus.GetOr(""),
      c.minCoverage.GetOr(0.0),
      c.maxDuplications.GetOr(0.0),
      c.maxIssues.GetOr(0),
      Enumerate(SetOf(c.requiredRules)))
  }

  /** `expandPortfolioFilters` with the compliance list read safely: an
      empty `compliance` list counts as no compliance block. */
  function ExpandFilters(b: FiltersBlock): (r: PortfolioFilters)
    ensures Elems(r.languages) == SetOf(b.languages) && Ascending(r.languages)
    ensures Elems(r.tags) == SetOf(b.tags) && Ascending(r.tags)
    ensures Elems(r.qualityGates) == SetOf(b.qualityGates) && Ascending(r.qualityGates)
    ensures b.compliance.Some? && |b.compliance.value| > 0 ==> r.compliance == ExpandCompliance(b.compliance.value[0])
    ensures b.compliance.None? || b.compliance == Some([]) ==> r.compliance == NoCompliance
    ensures r.metrics == b.customMetrics.GetOr(map[])
  {
    var compliance :=
      if b.compliance.Some? && |b.compliance.value| > 0 then ExpandCompliance(b.compliance.value[0]) else NoCompliance;
    PortfolioFilters(
      Enumerate(SetOf(b.languages)),
      Enumerate(SetOf(b.tags)),
      Enumerate(SetOf(b.qualityGates)),
      compliance,
      b.customMetrics.GetOr(map[]))
  }

  /** `expandPortfolioFilters` as written: a present `compliance` key is
      indexed at 0 without a length check, which panics (`None`) on the
      empty list the resource data holds when no compliance block was
      written. On every other block it agrees with `ExpandFilters`. */
  function ExpandFiltersAsWritten(b: FiltersBlock): (r: Option<PortfolioFilters>)
    ensures r.None? <==> b.compliance == Some([])
    ensures r.Some? ==> r.value == ExpandFilters(b)
  {
    if b.compliance == Some([]) then None else Some(ExpandFilters(b))
  }

  /** The `filters` block of `filters { languages = ["go"] }` as the
      resource data presents it, every nested key filled with its zero
      value, makes the expander as written panic. */
  lemma ExpandPanicsWithoutCompliance()
    ensures var b := FiltersBlock(Some({"go"}), Some({}), Some({}), Some([]), Some(map[]));
            && ExpandFiltersAsWritten(b).None?
            && ExpandFilters(b).compliance == NoCompliance
            && ExpandFilters(b).languages == ["go"]
  {
    var b := FiltersBlock(Some({"go"}), Some({}), Some({}), Some([]), Some(map[]));
    var langs := ExpandFilters(b).languages;
    assert |langs| == 1 && langs[0] in Elems(langs);
  }

  // --------------------------------------------------------------- flatten

  /** `flattenPortfolioCompliance`: nothing for nil, otherwise one block
      with all five keys, zero values included. */
  function FlattenCompliance(c: Option<PortfolioCompliance>): (r: seq<ComplianceBlock>)
    ensures c.None? <==> r == []
    ensures c.Some? ==> |r| == 1
    ensures c.Some? ==>
              && r[0].minQualityGateStatus == Some(c.value.minQualityGateStatus)
              && r[0].minCoverage == Some(c.value.minCoverage)
              && r[0].maxDuplications == Some(c.value.maxDuplications)
              && r[0].maxIssues == Some(c.value.maxIssues)
              && r[0].requiredRules == Some(Elems(c.value.requiredRules))
  {
    match c
    case None => []
    case Some(c) =>
      [ComplianceBlock(Some(c.minQualityGateStatus), Some(c.minCoverage), Some(c.maxDuplications),
                       Some(c.maxIssues), Some(Elems(c.requiredRules)))]
  }

  /** `flattenPortfolioFilters`: nothing for nil, otherwise one block with
      the three sets and the compliance always, and `custom_metrics` only
      when there are metrics. */
  function FlattenFilters(f: Option<PortfolioFilters>): (r: seq<FiltersBlock>)
    ensures f.None? <==> r == []
    ensures f.Some? ==> |r| == 1
    ensures f.Some? ==>
              && r[0].languages == Some(Elems(f.value.languages))
              && r[0].tags == Some(Elems(f.value.tags))
              && r[0].qualityGates == Some(Elems(f.value.qualityGates))
              && r[0].compliance == Some(FlattenCompliance(Some(f.value.compliance)))
              && (r[0].customMetrics.Some? <==> |f.value.metrics| > 0)
              && (r[0].customMetrics.Some? ==> r[0].customMetrics.value == f.value.metrics)
  {
    match f
    case None => []
    case Some(f) =>
      [FiltersBlock(Some(Elems(f.languages)), Some(Elems(f.tags)), Some(Elems(f.qualityGates)),
                    Some(FlattenCompliance(Some(f.compliance))),
                    if |f.metrics| > 0 then Some(f.metrics) else None)]
  }

  /** Filters whose lists are in the order `Set.List()` produces. */
  predicate Listed(f: PortfolioFilters)
  {
    Ascending(f.languages) && Ascending(f.tags) && Ascending(f.qualityGates) && Ascending(f.compliance.requiredRules)
  }

  /** Expanding what flatten stores reproduces the filters: the lists as
      sets, the compliance values, the metric map (an absent map reading
      as empty), and the exact filters when the lists are already in
      listing order. The expander as written does not panic on it. */
  lemma {:induction false} ExpandFlatten(f: PortfolioFilters)
    ensures var b := FlattenFilters(Some(f))[0];
            var g := ExpandFilters(b);
            && ExpandFiltersAsWritten(b) == Some(g)
            && Elems(g.languages) == Elems(f.languages)
            && Elems(g.tags) == Elems(f.tags)
            && Elems(g.qualityGates) == Elems(f.qualityGates)
            && g.compliance.minQualityGateStatus == f.compliance.minQualityGateStatus
            && g.compliance.minCoverage == f.compliance.minCoverage
            && g.compliance.maxDuplications == f.compliance.maxDuplications
            && g.compliance.maxIssues == f.compliance.maxIssues
            && Elems(g.compliance.requiredRules) == Elems(f.compliance.requiredRules)
            && g.metrics == f.metrics
            && (Listed(f) ==> g == f)
  {
    var b := FlattenFilters(Some(f))[0];
    var g := ExpandFilters(b);
    if |f.metrics| == 0 {
      assert f.metrics == map[];
    }
    if Listed(f) {
      EnumerateElems(f.languages);
      EnumerateElems(f.tags);
      EnumerateElems(f.qualityGates);
      EnumerateElems(f.compliance.requiredRules);
    }
  }

  /** A `filters` block as read back into the resource data: every key
      present, exactly one compliance block with every key present, and
      no empty metric map. */
  predicate Stored(b: FiltersBlock)
  {
    && b.languages.Some? && b.tags.Some? && b.qualityGates.Some?
    && b.compliance.Some? && |b.compliance.value| == 1
    && b.customMetrics != Some(map[])
    && var c := b.compliance.value[0];
       c.minQualityGateStatus.Some? && c.minCoverage.Some? && c.maxDuplications.Some?
       && c.maxIssues.Some? && c.requiredRules.Some?
  }

  /** Flattening what expand produced from a stored block gives the block back. */
  lemma FlattenExpand(b: FiltersBlock)
    requires Stored(b)
    ensures FlattenFilters(Some(ExpandFilters(b))) == [b]
  {
    var f := ExpandFilters(b);
    assert FlattenCompliance(Some(f.compliance)) == b.compliance.value;
  }

  // ------------------------------------------------------------ the switch

  /** The portfolio `resourcePortfolioCreate` and `resourcePortfolioUpdate`
      both build: key, name, description and mode always, then only the
      active mode's fields; everything else keeps its zero value. The
      filters go through the corrected `ExpandFilters`: where the resource
      as written panics on an empty compliance list
      (`ExpandFiltersAsWritten`), this build treats the list as no
      compliance settings. */
  function BuildPortfolio(d: PortfolioData): (p: Portfolio)
    ensures p.key == d.key && p.name == d.name && p.description == d.description
    ensures p.selection.mode == d.selectionMode
    ensures d.selectionMode == "MANUAL" ==>
              && Elems(p.selection.projects) == d.projects && Ascending(p.selection.projects)
              && p.selection.projectPattern == "" && p.selection.branchPattern == ""
              && p.filters == NoFilters
    ensures d.selectionMode == "REGEXP" ==>
              && p.selection.projects == []
              && p.selection.projectPattern == d.projectPattern && p.selection.branchPattern == d.branchPattern
              && p.filters == NoFilters
    ensures d.selectionMode == "FILTER" ==>
              && p.selection.projects == [] && p.selection.projectPattern == "" && p.selection.branchPattern == ""
              && p.filters == (if |d.filters| > 0 then ExpandFilters(d.filters[0]) else NoFilters)
    ensures d.selectionMode !in SelectionModes ==>
              p.selection == PortfolioSelection(d.selectionMode, [], "", "") && p.filters == NoFilters
  {
    var base := Portfolio(d.key, d.name, d.description, PortfolioSelection(d.selectionMode, [], "", ""), NoFilters);
    match d.selectionMode
    case "MANUAL" =>
      if |d.projects| > 0 then base.(selection := base.selection.(projects := Enumerate(d.projects))) else base
    case "REGEXP" =>
      var withProject := if d.projectPattern != "" then base.(selection := base.selection.(projectPattern := d.projectPattern)) else base;
      if d.branchPattern != "" then withProject.(selection := withProject.selection.(branchPattern := d.branchPattern)) else withProject
    case "FILTER" =>
      if |d.filters| > 0 then base.(filters := ExpandFilters(d.filters[0])) else base
    case _ => base
  }

  // ------------------------------------------------------------------ read

  /** The `d.Set` calls of `resourcePortfolioRead`: name, key, description
      and mode always, then only the active mode's attributes; the others
      keep what the state held. */
  function ReadInto(s: PortfolioState, p: Portfolio): (r: PortfolioState)
    ensures r.id == s.id
    ensures r.data.name == p.name && r.data.key == p.key && r.data.description == p.description
    ensures r.data.selectionMode == p.selection.mode
    ensures r.data.projects == (if p.selection.mode == "MANUAL" then Elems(p.selection.projects) else s.data.projects)
    ensures r.data.projectPattern == (if p.selection.mode == "REGEXP" then p.selection.projectPattern else s.data.projectPattern)
    ensures r.data.branchPattern == (if p.selection.mode == "REGEXP" then p.selection.branchPattern else s.data.branchPattern)
    ensures r.data.filters == (if p.selection.mode == "FILTER" then FlattenFilters(Some(p.filters)) else s.data.filters)
  {
    var common := s.data.(name := p.name, key := p.key, description := p.description, selectionMode := p.selection.mode);
    var data :=
      match p.selection.mode
      case "MANUAL" => common.(projects := Elems(p.selection.projects))
      case "REGEXP" => common.(projectPattern := p.selection.projectPattern, branchPattern := p.selection.branchPattern)
      case "FILTER" => common.(filters := FlattenFilters(Some(p.filters)))
      case _ => common;
    PortfolioState(s.id, data)
  }

  /** `resourcePortfolioRead`: fetch by the resource id; an error leaves the
      state alone. */
  function Read(s: PortfolioState, rs: Replies, at: nat): (r: Outcome<PortfolioState>)
    ensures r.calls == [GetPortfolioRequest(s.id)]
    ensures r.error.None? <==> Accepted(r.calls[0], ReplyAt(rs, at))
    ensures r.error.Some? ==> r.state == s
    ensures r.error.None? ==> r.state == ReadInto(s, ReplyAt(rs, at).body.portfolio)
  {
    var got := GetPortfolio(s.id, ReplyAt(rs, at));
    match got.result
    case Failure(e) => Outcome(got.calls, s, Some(e))
    case Success(p) => Outcome(got.calls, ReadInto(s, p), None)
  }

  // ------------------------------------------------- create, update, delete

  /** Issue `plan`, then read portfolio `s.id`, stopping at the first failure. */
  function Steps(s: PortfolioState, plan: seq<Request>, rs: Replies, at: nat): (r: Outcome<PortfolioState>)
    ensures FollowsPlan(plan + [GetPortfolioRequest(s.id)], rs, at, r.calls, r.error.None?)
    ensures r.state.id == s.id
    ensures |r.calls| <= |plan| ==>
              |r.calls| > 0 && r.state == s && r.error == Some(Rejection(ReplyAt(rs, at + |r.calls| - 1)))
    ensures |r.calls| > |plan| ==>
              r.state == Read(s, rs, at + |plan|).state && r.error == Read(s, rs, at + |plan|).error
  {
    var run := Perform(plan, rs, at);
    if run.result.Failure? then
      StopEarly(plan, [GetPortfolioRequest(s.id)], rs, at, run.calls);
      Outcome(run.calls, s, Some(run.result.error))
    else
      var read := Read(s, rs, at + |plan|);
      Single(GetPortfolioRequest(s.id), rs, at + |plan|);
      Chain(plan, [GetPortfolioRequest(s.id)], rs, at, run.calls, read.calls, read.error.None?);
      Outcome(run.calls + read.calls, read.state, read.error)
  }

  /** `resourcePortfolioCreate`: save the built portfolio, take its key as
      the id only once the save went through, then read it back. */
  function Create(d: PortfolioData, rs: Replies): (r: Outcome<PortfolioState>)
    ensures var p := BuildPortfolio(d);
            var plan := SavePlan(CreatePortfolioRequest(p), p);
            && FollowsPlan(plan + [GetPortfolioRequest(d.key)], rs, 0, r.calls, r.error.None?)
            && (|r.calls| <= |plan| ==>
                  |r.calls| > 0 && r.state == PortfolioState("", d) && r.error == Some(Rejection(ReplyAt(rs, |r.calls| - 1))))
            && (|r.calls| > |plan| ==>
                  && r.state.id == d.key
                  && r.state == Read(PortfolioState(d.key, d), rs, |plan|).state
                  && r.error == Read(PortfolioState(d.key, d), rs, |plan|).error)
  {
    var p := BuildPortfolio(d);
    var plan := SavePlan(CreatePortfolioRequest(p), p);
    var run := Steps(PortfolioState(p.key, d), plan, rs, 0);
    if |run.calls| <= |plan| then Outcome(run.calls, PortfolioState("", d), run.error) else run
  }

  /** `resourcePortfolioUpdate`: the same portfolio create would build,
      saved with the update call, then read back by the stored id. */
  function Update(prior: PortfolioState, d: PortfolioData, rs: Replies): (r: Outcome<PortfolioState>)
    ensures var p := BuildPortfolio(d);
            FollowsPlan(SavePlan(UpdatePortfolioRequest(p), p) + [GetPortfolioRequest(prior.id)], rs, 0, r.calls, r.error.None?)
    ensures r.state.id == prior.id
    ensures var p := BuildPortfolio(d);
            var n := |SavePlan(UpdatePortfolioRequest(p), p)|;
            && (|r.calls| <= n ==>
                  |r.calls| > 0 && r.state == PortfolioState(prior.id, d) && r.error == Some(Rejection(ReplyAt(rs, |r.calls| - 1))))
            && (|r.calls| > n ==>
                  r.state == Read(PortfolioState(prior.id, d), rs, n).state && r.error == Read(PortfolioState(prior.id, d), rs, n).error)
  {
    var p := BuildPortfolio(d);
    Steps(PortfolioState(prior.id, d), SavePlan(UpdatePortfolioRequest(p), p), rs, 0)
  }

  /** `resourcePortfolioDelete`: the id is cleared only when the delete went
      through. */
  function Delete(s: PortfolioState, x: Exchange): (r: Outcome<PortfolioState>)
    ensures r.calls == [DeletePortfolioRequest(s.id)]
    ensures r.error.None? <==> Send(x).Success?
    ensures r.error.None? ==> r.state == s.(id := "")
    ensures r.error.Some? ==> r.state == s
  {
    var deleted := DeletePortfolio(s.id, x);
    if deleted.result.Success? then Outcome(deleted.calls, s.(id := ""), None)
    else Outcome(deleted.calls, s, Some(deleted.result.error))
  }
}
