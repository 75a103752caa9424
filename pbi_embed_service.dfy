/**
 * The caller-facing entry point of `PbiEmbedService`: resolve a parameter by
 * (group name, dataset name, parameter name) and answer its current value.
 * The client handle it opens and disposes is not part of this model; the
 * snapshot it would read from is passed in instead.
 */
module PbiEmbedService {
  import opened Wrappers
  import opened Strings
  import opened Linq
  import opened PowerBIClientExtensions

  function FindParameterValueInDatasetInGroupAsync(
    client: PowerBIClient, groupName: Option<string>, datasetName: Option<string>, parameterName: Option<string>)
    : (r: Run<Option<string>>)
    ensures
      var found := FindParameterInDatasetInGroupAsync(client, groupName, datasetName, parameterName);
      && r.calls == found.calls
      && match found.outcome
         case Ok(None) => r.outcome == Ok(None)
         case Ok(Some(parameter)) => r.outcome == Ok(parameter.currentValue)
         case ArgumentNull(n) => r.outcome == ArgumentNull(n)
         case MoreThanOneMatch => r.outcome == MoreThanOneMatch
  {
    var found := FindParameterInDatasetInGroupAsync(client, groupName, datasetName, parameterName);
    match found.outcome
    case Ok(None) => Run(Ok(None), found.calls)
    case Ok(Some(parameter)) => Run(Ok(parameter.currentValue), found.calls)
    case ArgumentNull(n) => Run(ArgumentNull(n), found.calls)
    case MoreThanOneMatch => Run(MoreThanOneMatch, found.calls)
  }

  /** The three names each resolve, in turn, to exactly one element of the
      listing read under the ids found so far. */
  ghost predicate ResolvedChain(
    client: PowerBIClient, groupName: string, datasetName: string, parameterName: string,
    g: Group, d: Dataset, p: MashupParameter)
  {
    && !IsNullOrWhiteSpace(Some(groupName))
    && !IsNullOrWhiteSpace(Some(datasetName))
    && !IsNullOrWhiteSpace(Some(parameterName))
    && Resolves(client.groups, GroupNamed(groupName), Ok(Some(g)))
    && Resolves(client.datasetsInGroup(g.id), DatasetNamed(datasetName), Ok(Some(d)))
    && Resolves(client.parametersInGroup(g.id, d.id), ParameterNamed(parameterName), Ok(Some(p)))
  }

  /** When every name resolves, the answer is the parameter's current value,
      read with exactly three calls keyed by the ids of the resolved group and dataset. */
  lemma ValueOfResolvedChain(
    client: PowerBIClient, groupName: string, datasetName: string, parameterName: string,
    g: Group, d: Dataset, p: MashupParameter)
    requires ResolvedChain(client, groupName, datasetName, parameterName, g, d, p)
    ensures FindParameterValueInDatasetInGroupAsync(client, Some(groupName), Some(datasetName), Some(parameterName))
         == Run(Ok(p.currentValue), [GetGroups, GetDatasetsInGroup(g.id), GetParametersInGroup(g.id, d.id)])
  {
  }

  /** Conversely, a value is answered only when every name resolves, and it is
      the current value of the resolved parameter. */
  lemma ResolvedChainOfValue(
    client: PowerBIClient, groupName: string, datasetName: string, parameterName: string)
    requires FindParameterValueInDatasetInGroupAsync(client, Some(groupName), Some(datasetName), Some(parameterName)).outcome.Ok?
    requires FindParameterValueInDatasetInGroupAsync(client, Some(groupName), Some(datasetName), Some(parameterName)).outcome.value.Some?
    ensures exists g, d, p ::
      && ResolvedChain(client, groupName, datasetName, parameterName, g, d, p)
      && FindParameterValueInDatasetInGroupAsync(client, Some(groupName), Some(datasetName), Some(parameterName)).outcome
         == Ok(p.currentValue)
  {
    var gn, dn, pn := Some(groupName), Some(datasetName), Some(parameterName);
    var parameter := FindParameterInDatasetInGroupAsync(client, gn, dn, pn);
    var listed := GetParametersInDatasetInGroupAsync(client, gn, dn);
    var found := FindDatasetInGroupAsync(client, gn, dn);
    var datasets := FindDatasetsInGroupAsync(client, gn);
    var p := parameter.outcome.value.value;
    var g, d := found.outcome.value.0.value, found.outcome.value.1.value;
    assert ResolvedChain(client, groupName, datasetName, parameterName, g, d, p);
  }

  /** A group name that matches nothing ends the chain after the group listing. */
  lemma NoValueWithoutGroup(client: PowerBIClient, groupName: string, datasetName: string, parameterName: string)
    requires !IsNullOrWhiteSpace(Some(groupName)) && !IsNullOrWhiteSpace(Some(datasetName))
    requires !IsNullOrWhiteSpace(Some(parameterName))
    requires Resolves(client.groups, GroupNamed(groupName), Ok(None))
    ensures FindParameterValueInDatasetInGroupAsync(client, Some(groupName), Some(datasetName), Some(parameterName))
         == Run(Ok(None), [GetGroups])
  {
  }

  /** An ambiguous group name is reported as such by the entry point, after the
      group listing only; it is not turned into "no value". */
  lemma AmbiguousGroupPropagates(client: PowerBIClient, groupName: string, datasetName: string, parameterName: string)
    requires !IsNullOrWhiteSpace(Some(groupName)) && !IsNullOrWhiteSpace(Some(datasetName))
    requires !IsNullOrWhiteSpace(Some(parameterName))
    requires Resolves(client.groups, GroupNamed(groupName), MoreThanOneMatch)
    ensures FindParameterValueInDatasetInGroupAsync(client, Some(groupName), Some(datasetName), Some(parameterName))
         == Run(MoreThanOneMatch, [GetGroups])
  {
  }

  /** A blank name is reported, naming the first blank argument, before any call. */
  lemma BlankNameRejectedFirst(client: PowerBIClient, groupName: Option<string>, datasetName: Option<string>, parameterName: Option<string>)
    requires IsNullOrWhiteSpace(groupName) || IsNullOrWhiteSpace(datasetName) || IsNullOrWhiteSpace(parameterName)
    ensures
      FindParameterValueInDatasetInGroupAsync(client, groupName, datasetName, parameterName) ==
        Run(ArgumentNull(if IsNullOrWhiteSpace(groupName) then "groupName"
                         else if IsNullOrWhiteSpace(datasetName) then "datasetName"
                         else "parameterName"), [])
  {
  }

  /** The query names of the scenario below are not blank and match the
      stored names ignoring case. */
  lemma ScenarioNames()
    ensures !IsNullOrWhiteSpace(Some("tenanta")) && EqualsIgnoreCase("TenantA", "tenanta")
    ensures !IsNullOrWhiteSpace(Some("SalesReport")) && EqualsIgnoreCase("SalesReport", "SalesReport")
    ensures !IsNullOrWhiteSpace(Some("REFRESHDATE")) && EqualsIgnoreCase("RefreshDate", "REFRESHDATE")
  {
    assert !IsWhiteSpace("tenanta"[0]) && !IsWhiteSpace("SalesReport"[0]) && !IsWhiteSpace("REFRESHDATE"[0]);
  }

  /** A service listing one workspace "TenantA" holding one dataset
      "SalesReport" whose parameter "RefreshDate" is "2024-01-01": the value is
      found under other casings of the names, with the calls keyed by their ids. */
  lemma TenantScenario(client: PowerBIClient)
    requires client.groups == Some(Listing(Some([Group(7, "TenantA")])))
    requires client.datasetsInGroup(7) == Some(Listing(Some([Dataset("d1", "SalesReport")])))
    requires client.parametersInGroup(7, "d1")
          == Some(Listing(Some([MashupParameter("RefreshDate", Some("2024-01-01"))])))
    ensures FindParameterValueInDatasetInGroupAsync(client, Some("tenanta"), Some("SalesReport"), Some("REFRESHDATE"))
         == Run(Ok(Some("2024-01-01")), [GetGroups, GetDatasetsInGroup(7), GetParametersInGroup(7, "d1")])
  {
    var tenant := Group(7, "TenantA");
    var report := Dataset("d1", "SalesReport");
    var refresh := MashupParameter("RefreshDate", Some("2024-01-01"));
    ScenarioNames();
    SingletonIsSingleOf(tenant, GroupNamed("tenanta"));
    SingletonIsSingleOf(report, DatasetNamed("SalesReport"));
    SingletonIsSingleOf(refresh, ParameterNamed("REFRESHDATE"));
    ValueOfResolvedChain(client, "tenanta", "SalesReport", "REFRESHDATE", tenant, report, refresh);
  }
}
