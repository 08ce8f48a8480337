# SonarQube Terraform provider — request encoding and call sequencing

This project models the part of the SonarQube Terraform provider that turns
declared resources into SonarQube Web API calls. It covers the
`sonarqube_project`, `sonarqube_quality_gate` and `sonarqube_portfolio`
resources, and the client calls beneath them.

- **Client calls.** Each call is modelled as a pure function. The function
  builds the call's request (verb, endpoint, parameter map) and says what
  the call returns for a given reply of the service.
- **Parameter set.** Go's `url.Values` after `Set` calls is a
  `map<string, string>`, because `Set` overwrites an earlier value.
- **Replies.** The service and the network are an oracle: a run of an
  operation receives one `Exchange` per request, in issue order. A run that
  issues more requests than there are replies sees `NoResponse`.
  - A reply with status 400 or more is an error.
  - A body that does not decode into what the caller expects is a decode
    error.
- **Sequences.** Every multi-call operation stops at its first error.
  `Client.FollowsPlan` states that discipline once. The portfolio and
  quality-gate creates and updates are specified by it: the requests
  issued are a prefix of a fixed plan, each call but the last was
  accepted, and a failure ends the run. The project create and update
  state their calls case by case instead (a create, then a read; an
  update only when something changed, then a read).
- **Resource functions.** A Terraform resource function becomes a function
  returning an `Outcome`: the requests issued, the resource state saved, and
  the error diagnostic, if any.

Modules:

- `Wrappers`: `Option` and `Result`.
- `Text`: Go's `strings.Join`/`Split` and the `%d`/`%.2f` formatting.
- `StringSets`: `schema.Set.List()` as an ascending listing of a `set<string>`.
- `Client`: entities, transport, and the abort-on-first-error sequencer.
- `SonarQube`: the project and quality-gate client calls.
- `Portfolios`: the portfolio client calls.
- `ProjectResource`, `QualityGateResource`, `PortfolioResource`: the three
  resources.

## Model

| member | source | states |
|---|---|---|
| Client.Send | provider/client/client.go:45-47 | a reply is a success exactly when a response arrived with a status below 400, and then yields its body; a status of 400 or more is an API error carrying that status |
| Client.Issue | provider/client/sonarqube.go:53-64 | a single client call issues exactly its request; it succeeds iff the transport succeeds and the body decodes into the expected entity; otherwise the transport error is returned unchanged, or a decode error |
| Client.Perform | provider/client/portfolio.go:55-72 | running a chain of calls issues a prefix of the chain in order; every call but the last was accepted; success means every call was issued and accepted; failure stops right after the first rejected call and returns that call's error |
| SonarQube.CreateProjectRequest | provider/client/sonarqube.go:40-51 | projects/create always sends name, project (the key) and visibility; mainBranch is sent iff non-empty; tags are sent iff the list is non-empty, comma-joined; no other parameter is sent |
| SonarQube.CreateProject | provider/client/sonarqube.go:39-65 | one request; the created project is returned iff the call is accepted; a transport error is returned as is, with nothing decoded |
| SonarQube.ReadProject | provider/client/sonarqube.go:67-89 | the search is keyed by project; an empty search result is a not-found error for that key, never a success; otherwise the first component is returned; a transport error is returned as is |
| SonarQube.UpdateProjectRequest | provider/client/sonarqube.go:92-105 | projects/update always sends project; name and visibility are sent iff non-empty; tags are sent iff non-empty, comma-joined; no other parameter is sent |
| SonarQube.UpdateProject | provider/client/sonarqube.go:91-119 | one request; the updated project is returned iff the call is accepted; a transport error is returned as is |
| SonarQube.DeleteProject | provider/client/sonarqube.go:121-132 | one request, projects/delete keyed by project; it succeeds exactly when the transport does, since no body is read |
| SonarQube.ProjectTagsDecode | provider/client/sonarqube.go:49-51 | when no tag contains a comma, splitting the sent tags value on commas gives back exactly the tag list, in order, for both create and update; tags are sent iff the list is non-empty |
| SonarQube.CreateQualityGate | provider/client/sonarqube.go:135-151 | one request, qualitygates/create with the name only; the gate is returned iff the call is accepted |
| SonarQube.CreateConditionRequest | provider/client/sonarqube.go:154-158 | create_condition sends exactly gateId, metric, op and error; no warning threshold is ever sent |
| SonarQube.CreateQualityGateCondition | provider/client/sonarqube.go:153-172 | one request; the condition is returned iff the call is accepted; a transport error is returned as is |
| SonarQube.ReadQualityGate | provider/client/sonarqube.go:174-190 | one request, qualitygates/show identified by id alone; the gate is returned iff the call is accepted |
| SonarQube.UpdateQualityGate | provider/client/sonarqube.go:192-209 | one request, qualitygates/update with exactly id and name; the gate is returned iff the call is accepted |
| SonarQube.DeleteQualityGate | provider/client/sonarqube.go:211-222 | one request, qualitygates/delete identified by id alone; it succeeds exactly when the transport does |
| SonarQube.DeleteQualityGateCondition | provider/resource_qualitygate.go:123-126 | one request, qualitygates/delete_condition identified by the condition id; it succeeds iff the call is accepted |
| Portfolios.SelectionRequest | provider/client/portfolio.go:135-161 | key and mode are always sent; projects iff MANUAL mode with a non-empty list, comma-joined; each pattern iff REGEXP mode and the pattern is non-empty; in any other mode exactly key and mode |
| Portfolios.FiltersRequest | provider/client/portfolio.go:163-207 | key is always sent; each list iff non-empty, comma-joined; the gate status iff non-empty; coverage, duplications and issue count iff positive, floats with two decimals; each custom metric's operator and value under its own two names; no other parameter |
| Portfolios.ConfigureFiltersParams | provider/client/portfolio.go:163-198 | building the parameters as the client does, fixed parameters first and then the metric loop in any visiting order, gives exactly the parameters `FiltersRequest` describes |
| Portfolios.SetMetricParams | provider/client/portfolio.go:195-198 | whatever order the metric map is visited in, every metric ends with its operator and value under its own two names; parameters that are not metric names keep their values; nothing else is added; from metric-free parameters the result is their union with the metric parameters |
| Portfolios.MetricKeysDistinct | provider/client/portfolio.go:196-197 | distinct metric names never produce the same parameter name, and an operator name never equals a value name |
| Portfolios.MetricParamsCount | provider/client/portfolio.go:195-198 | the custom metrics contribute exactly two parameters each |
| Portfolios.DescriptionParams | provider/client/portfolio.go:47-53 | key and name are always sent; the description is sent iff non-empty; nothing else |
| Portfolios.CreatePortfolioRequest | provider/client/portfolio.go:46-55 | a POST to portfolios/create carrying key and name, and the description exactly when it is non-empty |
| Portfolios.UpdatePortfolioRequest | provider/client/portfolio.go:75-84 | a POST to portfolios/update carrying the same parameters as the create: key, name, and the description exactly when it is non-empty |
| Portfolios.SavePlan | provider/client/portfolio.go:55-72 | the full sequence of a save is the create or update call, then configure_selection, then configure_filters exactly in FILTER mode |
| Portfolios.CreatePortfolio | provider/client/portfolio.go:46-73 | create, selection, then filters in FILTER mode are issued in that order; the first error ends the run, no later call is issued, and that call's error is returned |
| Portfolios.UpdatePortfolio | provider/client/portfolio.go:75-102 | the same sequence as create, led by portfolios/update; the first error ends the run |
| Portfolios.DeletePortfolio | provider/client/portfolio.go:104-115 | one request keyed by the portfolio key; it succeeds exactly when the transport does |
| Portfolios.GetPortfolio | provider/client/portfolio.go:117-133 | one request keyed by the portfolio key; the portfolio is returned iff the call is accepted; a transport error is returned as is |
| Text.FormatFixed2RoundTrip | provider/client/portfolio.go:181-186 | the two-decimal text names exactly the value rounded to hundredths, so the receiver can parse back the rounded number |
| Text.ParseFormat | provider/client/portfolio.go:187-189 | the decimal text of the issue count parses back to the count |
| Text.SplitJoin | provider/client/portfolio.go:167-175 | comma-joining a non-empty list of comma-free values and splitting the result gives the list back |
| StringSets.Enumerate | provider/resource_portfolio.go:227-231 | a set is listed with every element exactly once, in a fixed (ascending) order |
| PortfolioResource.AscendingUnique | provider/resource_portfolio.go:227-231 | the listing order is canonical: two ascending lists with the same elements are equal |
| PortfolioResource.ValidateSelectionMode | provider/resource_portfolio.go:34-40 | no error exactly for MANUAL, REGEXP and FILTER; any other string gets exactly one error |
| PortfolioResource.BuildPortfolio | provider/resource_portfolio.go:142-173 | key, name, description and mode are copied; only the active mode's fields are filled and the other modes' fields keep their zero values; an unknown mode fills nothing; the filters come from the corrected expander `ExpandFilters` (see Findings); create and update both use this one definition, so they build identical portfolios |
| PortfolioResource.ExpandCompliance | provider/resource_portfolio.go:313-337 | each present key is copied and each absent one reads as Go's zero value; the rules are listed from their set |
| PortfolioResource.ExpandFilters | provider/resource_portfolio.go:266-311 | the three lists hold exactly their sets' elements; the compliance comes from the first block, and a missing or empty compliance list gives zero compliance; an absent metric map reads as empty |
| PortfolioResource.ExpandFiltersAsWritten | provider/resource_portfolio.go:293-296 | the expander as written panics exactly when the compliance list is present but empty; on every other block it agrees with the corrected expander |
| PortfolioResource.ExpandPanicsWithoutCompliance | provider/resource_portfolio.go:293-296 | a filters block that sets only languages, with every other key at its zero value, makes the expander as written panic |
| PortfolioResource.FlattenCompliance | provider/resource_portfolio.go:365-379 | nil gives an empty list; otherwise one block holding all five keys, zero values included |
| PortfolioResource.FlattenFilters | provider/resource_portfolio.go:339-363 | nil gives an empty list; otherwise one block with the three sets and the compliance; custom_metrics is present iff there are metrics, and then equals the metric map |
| PortfolioResource.ExpandFlatten | provider/resource_portfolio.go:266-379 | expanding what flatten stores does not panic; it reproduces the lists as sets, the compliance scalars and rules, and the metric map (empty equal to absent); it gives back the exact filters when the lists are already in listing order |
| PortfolioResource.FlattenExpand | provider/resource_portfolio.go:266-379 | a filters block as the read stores it is given back unchanged by flatten after expand |
| PortfolioResource.ReadInto | provider/resource_portfolio.go:191-206 | name, key, description and mode are always written back; only the active mode's attributes are overwritten; the others keep what the state held |
| PortfolioResource.Read | provider/resource_portfolio.go:183-209 | one request by the resource id; an error leaves the state untouched; on success the state is the per-mode projection of the returned portfolio |
| PortfolioResource.Create | provider/resource_portfolio.go:139-181 | the save sequence for the built portfolio, then the read of its key, with abort on the first error; a run that stops inside the save sequence reports an error and leaves the id unset; once the read is reached the id is the portfolio key, even if the read fails, and the saved state and the error are exactly those of `Read` at that position; a save failure reports the failing call's error and keeps the configuration |
| PortfolioResource.Update | provider/resource_portfolio.go:211-252 | the save sequence with the update call, then the read by the stored id, with abort on the first error; the id never changes; a save failure reports the failing call's error and keeps the configuration; once the read is reached, the saved state and the error are exactly those of `Read` |
| PortfolioResource.Delete | provider/resource_portfolio.go:254-264 | one delete by the resource id; the id is cleared iff the delete succeeded, and otherwise the state is untouched |
| QualityGateResource.CreateConditionsPlan | provider/resource_qualitygate.go:58-72 | one condition create per configured condition, in list order, each on the given gate |
| QualityGateResource.DeletePlan | provider/resource_qualitygate.go:117-128 | only condition deletes, at most one per old condition; none exactly when no old condition has an id; when all have ids, exactly one delete per condition, by its id, in list order |
| QualityGateResource.DeletePlanCoversIds | provider/resource_qualitygate.go:120-127 | every old condition that carries an id has its delete in the plan, whatever the other conditions hold |
| QualityGateResource.UpdatePlan | provider/resource_qualitygate.go:105-144 | a changed name puts the rename first; after that slot, unchanged conditions give no request, and changed conditions give the deletes of the old conditions followed by one create per desired condition, in order |
| QualityGateResource.UpdateRenamesOnlyFirst | provider/resource_qualitygate.go:105-144 | no request after the optional leading rename is a rename, so the gate is renamed at most once, and only when the name changed |
| QualityGateResource.ReadGate | provider/resource_qualitygate.go:77-103 | the read as written: one request by the gate id; an error leaves the state untouched; on success the name is stored and each condition keeps only metric, op and error, with no id |
| QualityGateResource.ReadGateKeepingIds | provider/resource_qualitygate.go:89-96 | the corrected read, which create and update use: the same, but each stored condition keeps the id the service reported |
| QualityGateResource.Create | provider/resource_qualitygate.go:45-75 | the gate create comes first; if it fails nothing else is issued and no id is set; otherwise the id is the returned gate id and stays set, and the condition creates on that id then the corrected read (`ReadGateKeepingIds`) follow with abort on the first error; a failed condition create reports its error and keeps the configured state; once the read is reached, the saved state and the error are exactly those of the corrected read |
| QualityGateResource.Update | provider/resource_qualitygate.go:105-147 | the update plan then the corrected read (`ReadGateKeepingIds`), with abort on the first error; the gate is always addressed by the stored id; a failed plan call reports its error and keeps the configured state; once the read is reached, the saved state and the error are exactly those of the corrected read |
| QualityGateResource.Delete | provider/resource_qualitygate.go:149-159 | one delete by the gate id; the id is cleared iff the delete succeeded |
| QualityGateResource.UpdateAfterReadDeletesNothing | provider/resource_qualitygate.go:116-128 | after a read as written, an update issues no condition delete at all, whatever the desired configuration |
| QualityGateResource.StaleConditionSurvives | provider/resource_qualitygate.go:116-143 | a gate holding coverage < 80, read and then changed to coverage < 70, gets only the new condition created and the old one is kept |
| QualityGateResource.UpdateDeletesIdentifiedConditions | provider/resource_qualitygate.go:116-143 | when every stored condition carries an id and the conditions changed, each is deleted in order right after the optional rename, and the desired conditions are created after the last delete |
| QualityGateResource.UpdateAfterReadKeepingIdsReplacesAll | provider/resource_qualitygate.go:116-143 | with the corrected read, a change of conditions deletes every condition the service reported, in order, then creates the desired ones |
| QualityGateResource.KeptIdsAreDeleted | provider/resource_qualitygate.go:116-143 | a stored list whose entries carry the ids of the service's conditions, one for one, has exactly those conditions deleted, in order, by an update that changes the conditions |
| ProjectResource.Resolve | provider/resource_project.go:27-36 | an omitted visibility is "private" and an omitted main branch is "main"; every written value is kept |
| ProjectResource.PlanChange | provider/resource_project.go:22-26 | a new project key forces replacement; identical attributes need no change; anything else is an in-place update |
| ProjectResource.Read | provider/resource_project.go:71-96 | one search by the resource id; an error leaves the state untouched; on success the state mirrors the first component |
| ProjectResource.Create | provider/resource_project.go:48-69 | the create is sent with the resolved attributes and tags in declared order; a rejected create issues nothing more and sets no id; otherwise the id is the returned key, the project is read back by it, and the saved state and the error are exactly those of that `Read` |
| ProjectResource.Update | provider/resource_project.go:98-118 | projects/update is sent iff name, visibility or tags changed, so a main-branch change alone sends no update; every request identifies the project by the stored id, not the configured key; the calls follow the plan of `UpdateSteps` with abort on the first error; a rejected update reports its rejection and keeps the configured attributes; otherwise the saved state and the error are exactly those of the read |
| ProjectResource.Delete | provider/resource_project.go:120-130 | one delete by the resource id; the id is cleared iff the delete succeeded, and otherwise the state is untouched |

## Left out

- Transport internals are not modelled. This covers building the HTTP request from the parameter map, the retry policy of go-retryablehttp (backoff, attempt count, retry decision), base URL and authentication, and closing response bodies. A request's fate is the oracle's `Exchange`; a request that cannot be built or whose attempts all fail is `NoResponse`.
- The package declares `Client` and `doRequest` twice, once in provider/client/client.go and once in provider/client/base_client.go, with different signatures. The model has one transport, the status rule both share. provider/client/client.go also declares `CreateProject` (line 53, name and key only, with a JSON body) and `DeleteProject` (line 64, the key in the query string), both again in provider/client/sonarqube.go (lines 39 and 121) with other signatures and request shapes. The model follows the sonarqube.go versions, which are the ones provider/resource_project.go calls (lines 62 and 123).
- provider/client/base_client.go reads `resp.StatusCode` for tracing and logging (lines 125-136) before it checks `err` (line 138). On a network failure that is a nil dereference. The model reports a network failure as `RequestFailed` instead.
- Telemetry is not modelled: Prometheus counters, tracing spans and logging. provider/metrics/metrics.go line 34 converts the status code with `string(statusCode)`, which yields a character, not digits; this only affects metric labels.
- JSON decoding is an oracle. A reply body is either the decoded entity or `Malformed`. Field-level decoding (missing fields, `omitempty`) is not modelled.
- Terraform glue is not modelled: schema declarations, `diag`, provider.go, the data sources and the tests. Errors returned by `d.Set` in the read functions are not modelled; the model treats every `d.Set` as succeeding.
- `PortfolioResource.ExpandFilters` sees the filters block as a datatype of optional fields. An absent Go map key is `None`. Terraform's presentation of nested blocks (zero values filled in for unset keys) is reflected in the inputs, not computed.
- `schema.Set.List()` orders elements by hash code. The model lists them in ascending lexicographic order. Both are fixed orders; the property that matters, each element once, holds either way.
- Float64 values are modelled as the exact real they denote. `Text.FormatFixed2` rounds to hundredths, half to even on exact ties. Float representation error is not modelled.
- Portfolios.FiltersRequest: states the custom-metric parameters through the map union `MetricParams`, not by replaying Go's unordered map iteration; `Portfolios.ConfigureFiltersParams` runs the loop of `Portfolios.SetMetricParams` on the fixed parameters and shows it reaches exactly those parameters in any visiting order.
- PortfolioResource.BuildPortfolio: uses the corrected `ExpandFilters`. For a FILTER portfolio whose filters block has no compliance block, the resource as written panics (provider/resource_portfolio.go:293-296); this build treats the empty compliance list as no compliance settings. The panic itself is modelled by `PortfolioResource.ExpandFiltersAsWritten`.
- PortfolioResource.Create: builds through `BuildPortfolio`, so in the case above it issues the save sequence and the read, where the resource as written panics before sending any request.
- PortfolioResource.Update: the same as `PortfolioResource.Create` on the update side; the resource as written panics before sending any request.
- QualityGateResource.Create: ends with the corrected read `ReadGateKeepingIds`, so the saved conditions keep the ids the service reported. The resource as written ends with `resourceQualityGateRead` (provider/resource_qualitygate.go:74), which stores no condition id (lines 89-96); that read is modelled by `QualityGateResource.ReadGate`.
- QualityGateResource.Update: ends with the same corrected read, where the resource as written ends with `resourceQualityGateRead` (provider/resource_qualitygate.go:146). A later update of a gate saved this way therefore deletes its old conditions; as written, it deletes none (`QualityGateResource.UpdateAfterReadDeletesNothing`).
- Terraform's plan/apply cycle is modelled only as far as `ProjectResource.PlanChange` (ForceNew on `project_key`). The resource functions receive the prior state and the desired attributes as arguments.
- `DeleteQualityGateCondition` is called by the quality gate resource but is not defined in provider/client/sonarqube.go. It is modelled as SonarQube's `qualitygates/delete_condition` endpoint keyed by the condition id.

## Findings

| source | as written | input that shows it | evidently intended | confidence | as-written member | corrected member |
|---|---|---|---|---|---|---|
| provider/resource_portfolio.go:293-296 | `data["compliance"]` is present whenever a filters block is set, and its list is indexed at 0 without a length check | a FILTER portfolio whose filters block sets `languages = ["go"]` and no compliance block: the compliance list is empty, so indexing at 0 panics | an empty compliance list means no compliance settings | not executed | PortfolioResource.ExpandFiltersAsWritten | PortfolioResource.ExpandFilters |
| provider/resource_qualitygate.go:89-96 | Read stores each condition as metric, op and error only, and the schema declares no `id`, so Update's delete loop (lines 120-128) never finds an id to delete | gate `g1` holding condition `c1` (coverage LT 80), configuration changed to coverage LT 70: Update only creates the new condition, and the old one stays on the gate | changing the conditions replaces the gate's old conditions | not executed | QualityGateResource.ReadGate | QualityGateResource.ReadGateKeepingIds |
