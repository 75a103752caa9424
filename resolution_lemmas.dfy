/** Properties of the lookup chain stated directly on the service snapshot. */
module ResolutionLemmas {
  import opened Wrappers
  import opened Strings
  import opened Linq
  import opened PowerBIClientExtensions

  /** The order in which the groups are listed does not change the group lookup. */
  lemma FindGroupOrderIndependent(c1: PowerBIClient, c2: PowerBIClient, groupName: Option<string>)
    requires Listed(c1.groups) && Listed(c2.groups)
    requires multiset(Items(c1.groups)) == multiset(Items(c2.groups))
    ensures FindGroupAsync(c1, groupName) == FindGroupAsync(c2, groupName)
  {
    if !IsNullOrWhiteSpace(groupName) {
      SingleOrDefaultPermutation(Items(c1.groups), Items(c2.groups), GroupNamed(groupName.value));
    }
  }

  /** A single group whose name differs from the argument only in case is found. */
  lemma FindGroupIgnoresCase(client: PowerBIClient, g: Group, groupName: string)
    requires client.groups == Some(Listing(Some([g])))
    requires !IsNullOrWhiteSpace(Some(groupName)) && Fold(g.name) == Fold(groupName)
    ensures FindGroupAsync(client, Some(groupName)) == Run(Ok(Some(g)), [GetGroups])
  {
    EqualsIgnoreCaseIffSameFold(g.name, groupName);
    var r := FindGroupAsync(client, Some(groupName));
    assert IsSingleOf([g], GroupNamed(groupName), One(g));
    ResolvesUnique(client.groups, GroupNamed(groupName), r.outcome, Ok(Some(g)));
  }

  /** Two groups whose names agree ignoring case make the group lookup fail,
      whatever else is listed and wherever the two sit. */
  lemma FindGroupAmbiguous(client: PowerBIClient, groupName: string, i: nat, j: nat)
    requires Listed(client.groups) && i < j < |Items(client.groups)|
    requires !IsNullOrWhiteSpace(Some(groupName))
    requires EqualsIgnoreCase(Items(client.groups)[i].name, groupName)
    requires EqualsIgnoreCase(Items(client.groups)[j].name, groupName)
    ensures FindGroupAsync(client, Some(groupName)) == Run(MoreThanOneMatch, [GetGroups])
  {
  }

  /** A group that is found but has no dataset of that name is kept in the answer. */
  lemma FindDatasetInGroupKeepsGroup(client: PowerBIClient, groupName: string, datasetName: string, g: Group)
    requires !IsNullOrWhiteSpace(Some(groupName)) && !IsNullOrWhiteSpace(Some(datasetName))
    requires Resolves(client.groups, GroupNamed(groupName), Ok(Some(g)))
    requires Resolves(client.datasetsInGroup(g.id), DatasetNamed(datasetName), Ok(None))
    requires Listed(client.datasetsInGroup(g.id))
    ensures FindDatasetInGroupAsync(client, Some(groupName), Some(datasetName))
         == Run(Ok((Some(g), None)), [GetGroups, GetDatasetsInGroup(g.id)])
  {
  }

  /** A group that is found but whose dataset listing is missing yields `(null, null)`. */
  lemma FindDatasetInGroupWithoutListing(client: PowerBIClient, groupName: string, datasetName: string, g: Group)
    requires !IsNullOrWhiteSpace(Some(groupName)) && !IsNullOrWhiteSpace(Some(datasetName))
    requires Resolves(client.groups, GroupNamed(groupName), Ok(Some(g)))
    requires !Listed(client.datasetsInGroup(g.id))
    ensures FindDatasetInGroupAsync(client, Some(groupName), Some(datasetName))
         == Run(Ok((None, None)), [GetGroups, GetDatasetsInGroup(g.id)])
  {
  }

  /** Once the group and the dataset are resolved, the parameters are listed
      under exactly their two ids, and that listing is the answer. */
  lemma GetParametersOfResolvedPair(client: PowerBIClient, groupName: string, datasetName: string, g: Group, d: Dataset)
    requires !IsNullOrWhiteSpace(Some(groupName)) && !IsNullOrWhiteSpace(Some(datasetName))
    requires Resolves(client.groups, GroupNamed(groupName), Ok(Some(g)))
    requires Resolves(client.datasetsInGroup(g.id), DatasetNamed(datasetName), Ok(Some(d)))
    ensures GetParametersInDatasetInGroupAsync(client, Some(groupName), Some(datasetName))
         == Run(Ok(client.parametersInGroup(g.id, d.id)),
                [GetGroups, GetDatasetsInGroup(g.id), GetParametersInGroup(g.id, d.id)])
  {
  }

  /** An ambiguous dataset name inside a found group is reported as such. */
  lemma FindDatasetInGroupAmbiguous(client: PowerBIClient, groupName: string, datasetName: string, g: Group)
    requires !IsNullOrWhiteSpace(Some(groupName)) && !IsNullOrWhiteSpace(Some(datasetName))
    requires Resolves(client.groups, GroupNamed(groupName), Ok(Some(g)))
    requires Resolves(client.datasetsInGroup(g.id), DatasetNamed(datasetName), MoreThanOneMatch)
    ensures FindDatasetInGroupAsync(client, Some(groupName), Some(datasetName))
         == Run(MoreThanOneMatch, [GetGroups, GetDatasetsInGroup(g.id)])
  {
  }
}
