/**
 * The name-resolution chain of `PowerBIClientExtensions`: a workspace (group)
 * by name, then a dataset by name inside it, then a mashup parameter by name
 * inside that dataset.
 *
 * The remote service is an immutable snapshot: the groups listing, and the
 * datasets and parameters listings the REST API would answer for each id.
 * Every operation returns the outcome together with the REST calls it made,
 * in order, so that whether a listing call is made, where the chain stops,
 * and which ids each call carries are facts about that trace.
 */
module PowerBIClientExtensions {
  import opened Wrappers
  import opened Strings
  import opened Linq

  /** A 128-bit `Guid`. */
  newtype Guid = x: int | 0 <= x < 0x1_0000_0000_0000_0000_0000_0000_0000_0000

  datatype Group = Group(id: Guid, name: string)
  datatype Dataset = Dataset(id: string, name: string)
  datatype MashupParameter = MashupParameter(name: string, currentValue: Option<string>)

  /** A listing object of the REST API (`Groups`, `Datasets`, `MashupParameters`),
      whose `Value` may itself be null. The response as a whole may be null too,
      so a listing is read as an `Option<Listing<T>>`. */
  datatype Listing<T> = Listing(value: Option<seq<T>>)

  /** What the service answers to each read call. */
  datatype PowerBIClient = PowerBIClient(
    groups: Option<Listing<Group>>,
    datasetsInGroup: Guid -> Option<Listing<Dataset>>,
    parametersInGroup: (Guid, string) -> Option<Listing<MashupParameter>>)

  /** The REST calls, with the ids they are keyed by. */
  datatype Call =
    | GetGroups
    | GetDatasetsInGroup(groupId: Guid)
    | GetParametersInGroup(groupId: Guid, datasetId: string)

  /** `ArgumentNullException(paramName)`, the `InvalidOperationException` that
      `SingleOrDefault` throws on a second match, or a (possibly null) value. */
  datatype Outcome<T> = Ok(value: T) | ArgumentNull(paramName: string) | MoreThanOneMatch

  datatype Run<T> = Run(outcome: Outcome<T>, calls: seq<Call>)

  /** Neither the response nor its `Value` is null. */
  predicate Listed<T>(l: Option<Listing<T>>) {
    l.Some? && l.value.value.Some?
  }

  function Items<T>(l: Option<Listing<T>>): (xs: seq<T>)
    requires Listed(l)
  {
    l.value.value.value
  }

  function GroupNamed(name: string): (p: Group -> bool) {
    (g: Group) => EqualsIgnoreCase(g.name, name)
  }

  function DatasetNamed(name: string): (p: Dataset -> bool) {
    (d: Dataset) => EqualsIgnoreCase(d.name, name)
  }

  function ParameterNamed(name: string): (p: MashupParameter -> bool) {
    (p: MashupParameter) => EqualsIgnoreCase(p.name, name)
  }

  /** The lookup rule every step follows once its list is fetched: a missing
      list is "not found"; otherwise no match is "not found", one match is that
      element and two or more matches are an error. */
  ghost predicate Resolves<T>(l: Option<Listing<T>>, p: T -> bool, o: Outcome<Option<T>>) {
    match o
    case ArgumentNull(_) => false
    case MoreThanOneMatch => Listed(l) && IsSingleOf(Items(l), p, Many)
    case Ok(x) =>
      if Listed(l) then IsSingleOf(Items(l), p, if x.Some? then One(x.value) else NoMatch)
      else x.None?
  }

  lemma ResolvesUnique<T>(l: Option<Listing<T>>, p: T -> bool, o1: Outcome<Option<T>>, o2: Outcome<Option<T>>)
    requires Resolves(l, p, o1) && Resolves(l, p, o2)
    ensures o1 == o2
  {
  }

  /** The null checks on a fetched listing followed by `SingleOrDefault`. */
  function Pick<T(==)>(l: Option<Listing<T>>, p: T -> bool): (o: Outcome<Option<T>>)
    ensures Resolves(l, p, o)
  {
    if !Listed(l) then Ok(None)
    else
      match SingleOrDefault(Items(l), p)
      case NoMatch => Ok(None)
      case One(x) => Ok(Some(x))
      case Many => MoreThanOneMatch
  }

  /** The snapshot accessor: one call, whose answer is passed on as is. */
  function GetGroupsAsync(client: PowerBIClient): (r: Run<Option<Listing<Group>>>)
    ensures r.outcome == Ok(client.groups) && r.calls == [GetGroups]
  {
    Run(Ok(client.groups), [GetGroups])
  }

  function FindGroupAsync(client: PowerBIClient, groupName: Option<string>): (r: Run<Option<Group>>)
    ensures IsNullOrWhiteSpace(groupName) ==> r == Run(ArgumentNull("groupName"), [])
    ensures !IsNullOrWhiteSpace(groupName) ==>
      r.calls == [GetGroups] && Resolves(client.groups, GroupNamed(groupName.value), r.outcome)
  {
    if IsNullOrWhiteSpace(groupName) then Run(ArgumentNull("groupName"), [])
    else
      var groups := GetGroupsAsync(client);
      Run(Pick(groups.outcome.value, GroupNamed(groupName.value)), groups.calls)
  }

  function FindDatasetsInGroupAsync(client: PowerBIClient, groupName: Option<string>)
    : (r: Run<(Option<Group>, Option<Listing<Dataset>>)>)
    ensures IsNullOrWhiteSpace(groupName) ==> r == Run(ArgumentNull("groupName"), [])
    ensures !IsNullOrWhiteSpace(groupName) ==>
      match r.outcome
      case ArgumentNull(_) => false
      case MoreThanOneMatch =>
        r.calls == [GetGroups] && Resolves(client.groups, GroupNamed(groupName.value), MoreThanOneMatch)
      case Ok((group, datasets)) =>
        && Resolves(client.groups, GroupNamed(groupName.value), Ok(group))
        && if group.None? then datasets.None? && r.calls == [GetGroups]
           else
             && datasets == client.datasetsInGroup(group.value.id)
             && r.calls == [GetGroups, GetDatasetsInGroup(group.value.id)]
  {
    if IsNullOrWhiteSpace(groupName) then Run(ArgumentNull("groupName"), [])
    else
      var found := FindGroupAsync(client, groupName);
      match found.outcome
      case ArgumentNull(n) => Run(ArgumentNull(n), found.calls)
      case MoreThanOneMatch => Run(MoreThanOneMatch, found.calls)
      case Ok(None) => Run(Ok((None, None)), found.calls)
      case Ok(Some(group)) =>
        Run(Ok((Some(group), client.datasetsInGroup(group.id))), found.calls + [GetDatasetsInGroup(group.id)])
  }

  /** The group stays in the answer when the dataset listing is there but
      holds no matching dataset: `(group, null)`, not `(null, null)`. */
  function FindDatasetInGroupAsync(client: PowerBIClient, groupName: Option<string>, datasetName: Option<string>)
    : (r: Run<(Option<Group>, Option<Dataset>)>)
    ensures IsNullOrWhiteSpace(groupName) ==> r == Run(ArgumentNull("groupName"), [])
    ensures !IsNullOrWhiteSpace(groupName) && IsNullOrWhiteSpace(datasetName) ==>
      r == Run(ArgumentNull("datasetName"), [])
    ensures !IsNullOrWhiteSpace(groupName) && !IsNullOrWhiteSpace(datasetName) ==>
      var listed := FindDatasetsInGroupAsync(client, groupName);
      && r.calls == listed.calls
      && match listed.outcome
         case ArgumentNull(_) => false
         case MoreThanOneMatch => r.outcome == MoreThanOneMatch
         case Ok((group, datasets)) =>
           if group.None? || !Listed(datasets) then r.outcome == Ok((None, None))
           else
             match r.outcome
             case ArgumentNull(_) => false
             case MoreThanOneMatch => Resolves(datasets, DatasetNamed(datasetName.value), MoreThanOneMatch)
             case Ok((g, dataset)) => g == group && Resolves(datasets, DatasetNamed(datasetName.value), Ok(dataset))
  {
    if IsNullOrWhiteSpace(groupName) then Run(ArgumentNull("groupName"), [])
    else if IsNullOrWhiteSpace(datasetName) then Run(ArgumentNull("datasetName"), [])
    else
      var listed := FindDatasetsInGroupAsync(client, groupName);
      match listed.outcome
      case ArgumentNull(n) => Run(ArgumentNull(n), listed.calls)
      case MoreThanOneMatch => Run(MoreThanOneMatch, listed.calls)
      case Ok((group, datasets)) =>
        if group.None? || !Listed(datasets) then Run(Ok((None, None)), listed.calls)
        else
          match Pick(datasets, DatasetNamed(datasetName.value))
          case Ok(dataset) => Run(Ok((group, dataset)), listed.calls)
          case ArgumentNull(n) => Run(ArgumentNull(n), listed.calls)
          case MoreThanOneMatch => Run(MoreThanOneMatch, listed.calls)
  }

  function GetParametersInDatasetInGroupAsync(client: PowerBIClient, groupName: Option<string>, datasetName: Option<string>)
    : (r: Run<Option<Listing<MashupParameter>>>)
    ensures IsNullOrWhiteSpace(groupName) ==> r == Run(ArgumentNull("groupName"), [])
    ensures !IsNullOrWhiteSpace(groupName) && IsNullOrWhiteSpace(datasetName) ==>
      r == Run(ArgumentNull("datasetName"), [])
    ensures !IsNullOrWhiteSpace(groupName) && !IsNullOrWhiteSpace(datasetName) ==>
      var found := FindDatasetInGroupAsync(client, groupName, datasetName);
      match found.outcome
      case ArgumentNull(_) => false
      case MoreThanOneMatch => r == Run(MoreThanOneMatch, found.calls)
      case Ok((Some(group), Some(dataset))) =>
        r == Run(Ok(client.parametersInGroup(group.id, dataset.id)),
                 found.calls + [GetParametersInGroup(group.id, dataset.id)])
      case Ok(_) => r == Run(Ok(None), found.calls)
  {
    if IsNullOrWhiteSpace(groupName) then Run(ArgumentNull("groupName"), [])
    else if IsNullOrWhiteSpace(datasetName) then Run(ArgumentNull("datasetName"), [])
    else
      var found := FindDatasetInGroupAsync(client, groupName, datasetName);
      match found.outcome
      case ArgumentNull(n) => Run(ArgumentNull(n), found.calls)
      case MoreThanOneMatch => Run(MoreThanOneMatch, found.calls)
      case Ok((Some(group), Some(dataset))) =>
        Run(Ok(client.parametersInGroup(group.id, dataset.id)),
            found.calls + [GetParametersInGroup(group.id, dataset.id)])
      case Ok(_) => Run(Ok(None), found.calls)
  }

  function FindParameterInDatasetInGroupAsync(
    client: PowerBIClient, groupName: Option<string>, datasetName: Option<string>, parameterName: Option<string>)
    : (r: Run<Option<MashupParameter>>)
    ensures IsNullOrWhiteSpace(groupName) ==> r == Run(ArgumentNull("groupName"), [])
    ensures !IsNullOrWhiteSpace(groupName) && IsNullOrWhiteSpace(datasetName) ==>
      r == Run(ArgumentNull("datasetName"), [])
    ensures !IsNullOrWhiteSpace(groupName) && !IsNullOrWhiteSpace(datasetName) && IsNullOrWhiteSpace(parameterName) ==>
      r == Run(ArgumentNull("parameterName"), [])
    ensures !IsNullOrWhiteSpace(groupName) && !IsNullOrWhiteSpace(datasetName) && !IsNullOrWhiteSpace(parameterName) ==>
      var listed := GetParametersInDatasetInGroupAsync(client, groupName, datasetName);
      && r.calls == listed.calls
      && match listed.outcome
         case ArgumentNull(_) => false
         case MoreThanOneMatch => r.outcome == MoreThanOneMatch
         case Ok(parameters) => Resolves(parameters, ParameterNamed(parameterName.value), r.outcome)
  {
    if IsNullOrWhiteSpace(groupName) then Run(ArgumentNull("groupName"), [])
    else if IsNullOrWhiteSpace(datasetName) then Run(ArgumentNull("datasetName"), [])
    else if IsNullOrWhiteSpace(parameterName) then Run(ArgumentNull("parameterName"), [])
    else
      var listed := GetParametersInDatasetInGroupAsync(client, groupName, datasetName);
      match listed.outcome
      case ArgumentNull(n) => Run(ArgumentNull(n), listed.calls)
      case MoreThanOneMatch => Run(MoreThanOneMatch, listed.calls)
      case Ok(parameters) => Run(Pick(parameters, ParameterNamed(parameterName.value)), listed.calls)
  }
}

