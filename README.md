# PowerBI name resolution, modelled in Dafny

This project models the name-resolution chain of the `PowerBI.Proxies` library.
`PowerBIClientExtensions` resolves a workspace (a Power BI *group*) by name,
then a dataset by name inside that group, then a mashup parameter by name
inside that dataset. `PbiEmbedService.FindParameterValueInDatasetInGroupAsync`
is the caller-facing step: it answers the found parameter's `CurrentValue`.

Every step follows one rule:

1. a null, empty or white-space-only name argument is rejected with
   `ArgumentNullException(nameof(arg))` before any REST call;
2. a list is fetched;
3. a missing list (the response is null, or its `Value` is null) means "not found";
4. `SingleOrDefault` with an ordinal case-insensitive name comparison picks the
   element: no match gives null, one match gives that element, two or more
   matches throw.

## How the model is built

- `Wrappers.Option` stands for a nullable value; name arguments are
  `Option<string>`, so a null argument is `None`.
- `Strings` holds `IsNullOrWhiteSpace` over the exact set of characters that
  `Char.IsWhiteSpace` accepts, and `EqualsIgnoreCase`, a character-wise
  comparison after folding lower-case ASCII letters to upper case.
- `Linq.SingleOrDefault` returns one of three outcomes (`NoMatch`, `One(x)`,
  `Many`). Its contract ties the outcome to a declarative reading by positions
  (`IsSingleOf`), which is proved to determine the outcome uniquely and not to
  depend on the order of the list.
- `PowerBIClientExtensions.PowerBIClient` is an immutable snapshot of the
  service. It holds the groups listing and, keyed by id, the datasets listing
  of each group and the parameters listing of each (group id, dataset id) pair.
  `Listing` mirrors the API's listing objects, whose `Value` may be null.
- Every operation returns a `Run`: the `Outcome` and the sequence of REST
  `Call`s made, in order. An `Outcome` is `Ok(value)`, `ArgumentNull(paramName)`
  or `MoreThanOneMatch` (the exception `SingleOrDefault` throws).
  Whether a listing call is made, where the chain stops, and which ids each
  call carries are stated as equalities on the call sequence.
- `Resolves(listing, predicate, outcome)` states rule steps 3 and 4
  declaratively. Each lookup's contract says its outcome `Resolves`. Each later
  step's contract says how it builds on the previous step: which call it adds,
  with which ids, and how it passes each outcome on.
- The nested operations call the inner ones as the source does, so the inner
  re-validation of the names is kept; it can never fail once the outer check
  has passed.

The code is followed where its doc comment says otherwise.
`FindDatasetInGroupAsync` is documented (PowerBI.Proxies/PowerBIClientExtensions.cs:93, :98)
to answer `(null, null)` when the dataset is not found. The code at lines 117-118
answers `(group, null)` when the group is found and its dataset listing is present
but no dataset matches. The model does the same; `ResolutionLemmas.FindDatasetInGroupKeepsGroup`
states it. `(null, null)` is answered only when the group is not found, or when the
dataset listing or its `Value` is null.

A parameter's `CurrentValue` is itself nullable. The entry point therefore answers
`Ok(None)` both when no parameter is found and when the parameter found has a null
value, as the source does.

## Model

| member | source | states |
|---|---|---|
| `Linq.SingleOrDefault` | PowerBI.Proxies/PowerBIClientExtensions.cs:56-57 | The outcome is `NoMatch` exactly when no position matches, `One(x)` when exactly one position matches and holds `x`, and `Many` when two distinct positions match |
| `Linq.IsSingleOfUnique` | PowerBI.Proxies/PowerBIClientExtensions.cs:56-57 | At most one of the three outcomes fits a list, so the declarative reading determines the result |
| `Linq.SingleOrDefaultAppend` | PowerBI.Proxies/PowerBIClientExtensions.cs:56-57 | The outcome over `xs + ys` combines the outcomes over `xs` and `ys`: no match on one side gives the other side's outcome, matches on both sides give `Many` |
| `Linq.SingleOrDefaultPermutation` | PowerBI.Proxies/PowerBIClientExtensions.cs:35-37 | Any reordering of the list gives the same outcome, so ambiguity is detected wherever the matches sit |
| `Strings.EqualsIgnoreCaseIffSameFold` | PowerBI.Proxies/PowerBIClientExtensions.cs:57 | Two names are equal ignoring case exactly when their folded forms are equal |
| `Strings.EqualsIgnoreCaseIsEquivalence` | PowerBI.Proxies/PowerBIClientExtensions.cs:57 | The case-insensitive comparison is reflexive, symmetric and transitive |
| `Strings.CaseVariantsCoincide` | PowerBI.Proxies/PowerBIClientExtensions.cs:57 | "Sales", "sales" and "SALES" compare equal; "Sales" and "Sale" do not |
| `Strings.IsWhiteSpace` | PowerBI.Proxies/PowerBIClientExtensions.cs:49 | Accepts exactly the characters `Char.IsWhiteSpace` accepts (the Zs, Zl and Zp categories plus U+0009..U+000D and U+0085); among ASCII characters these are the space and U+0009..U+000D, and none of them is changed by case folding |
| `Strings.IsNullOrWhiteSpace` | PowerBI.Proxies/PowerBIClientExtensions.cs:49 | `string.IsNullOrWhiteSpace`: null and "" are blank, a string with any visible character is not, and a blank string is unchanged by case folding. The same rule guards every name argument (lines 77, 108-111, 141-144, 176-181) |
| `Strings.EqualsIgnoreCase` | PowerBI.Proxies/PowerBIClientExtensions.cs:57 | `Equals(..., StringComparison.OrdinalIgnoreCase)`, also used at lines 118 and 188: equal names always match, and matching names have the same length. Only ASCII letters are folded (see "Left out") |
| `Strings.BlankNames` | PowerBI.Proxies/PowerBIClientExtensions.cs:49-50 | Example checks of the white-space table: null, "" and " \t\r\n" are blank, " Sales " is not |
| `PowerBIClientExtensions.ResolvesUnique` | PowerBI.Proxies/PowerBIClientExtensions.cs:53-57 | The lookup rule allows exactly one outcome for a given listing and name |
| `PowerBIClientExtensions.Pick` | PowerBI.Proxies/PowerBIClientExtensions.cs:53-57 | A null response or null `Value` gives "not found"; otherwise the zero/one/many rule applies; the outcome satisfies `Resolves` |
| `PowerBIClientExtensions.GetGroupsAsync` | PowerBI.Proxies/PowerBIClientExtensions.cs:25-30 | Makes exactly one `GetGroups` call and passes the listing on unchanged, nulls included |
| `PowerBIClientExtensions.FindGroupAsync` | PowerBI.Proxies/PowerBIClientExtensions.cs:44-58 | A blank `groupName` gives `ArgumentNull("groupName")` with no call; otherwise exactly one `GetGroups` call, and the outcome resolves `groupName` case-insensitively in the groups listing |
| `PowerBIClientExtensions.FindDatasetsInGroupAsync` | PowerBI.Proxies/PowerBIClientExtensions.cs:72-87 | Blank name rejected with no call. Group ambiguous: the error after the group listing only. Group not found: `(null, null)` with no dataset call. Found: the group paired with the datasets listed under exactly its `Id`, after `GetDatasetsInGroup(id)` |
| `PowerBIClientExtensions.FindDatasetInGroupAsync` | PowerBI.Proxies/PowerBIClientExtensions.cs:102-119 | `groupName` is checked before `datasetName`. No call beyond the previous step's. Errors propagate. A missing group or dataset listing gives `(null, null)`. Otherwise the found group is paired with the outcome of resolving `datasetName` in the listing, null on no match |
| `PowerBIClientExtensions.GetParametersInDatasetInGroupAsync` | PowerBI.Proxies/PowerBIClientExtensions.cs:135-154 | Names checked in order. A null group or dataset gives null and no further call. Otherwise one more call, `GetParametersInGroup(group.Id, dataset.Id)` of the resolved pair, whose listing is the answer. Errors propagate |
| `PowerBIClientExtensions.FindParameterInDatasetInGroupAsync` | PowerBI.Proxies/PowerBIClientExtensions.cs:169-189 | `groupName`, `datasetName`, `parameterName` checked in that order with no call. No call beyond the parameter-listing step's. Errors propagate. The outcome resolves `parameterName` in the listing, null if the listing or its `Value` is missing |
| `ResolutionLemmas.FindGroupOrderIndependent` | PowerBI.Proxies/PowerBIClientExtensions.cs:35-37 | Two snapshots whose group listings are reorderings of each other give the same group lookup result |
| `ResolutionLemmas.FindGroupIgnoresCase` | PowerBI.Proxies/PowerBIClientExtensions.cs:56-57 | A sole group whose name folds to the same string as the argument is found, after one `GetGroups` call |
| `ResolutionLemmas.FindGroupAmbiguous` | PowerBI.Proxies/PowerBIClientExtensions.cs:35-37 | Two listed groups whose names match the argument ignoring case make the lookup fail with `MoreThanOneMatch`, not pick one |
| `ResolutionLemmas.FindDatasetInGroupKeepsGroup` | PowerBI.Proxies/PowerBIClientExtensions.cs:117-118 | A found group whose listed datasets match nothing gives `(group, null)` after exactly the group and dataset listings |
| `ResolutionLemmas.FindDatasetInGroupWithoutListing` | PowerBI.Proxies/PowerBIClientExtensions.cs:113-115 | A found group whose dataset listing or its `Value` is null gives `(null, null)` |
| `ResolutionLemmas.FindDatasetInGroupAmbiguous` | PowerBI.Proxies/PowerBIClientExtensions.cs:117-118 | Two datasets of a found group matching the name ignoring case give `MoreThanOneMatch` after the group and dataset listings |
| `ResolutionLemmas.GetParametersOfResolvedPair` | PowerBI.Proxies/PowerBIClientExtensions.cs:146-153 | When the group and the dataset each resolve to one element, the answer is the parameter listing read under exactly `(g.Id, d.Id)`, after three calls |
| `PbiEmbedService.FindParameterValueInDatasetInGroupAsync` | PowerBI.Proxies/PbiEmbedService.cs:12-26 | Forwards the three names unchanged to the parameter lookup and makes no other call. No parameter gives null; a parameter gives exactly its `CurrentValue`; blank-name and ambiguity errors pass through unchanged |
| `PbiEmbedService.ValueOfResolvedChain` | PowerBI.Proxies/PbiEmbedService.cs:19-25 | When each name resolves to exactly one element, the answer is that parameter's `CurrentValue`. It is read with the calls `GetGroups`, `GetDatasetsInGroup(g.Id)`, `GetParametersInGroup(g.Id, d.Id)` |
| `PbiEmbedService.ResolvedChainOfValue` | PowerBI.Proxies/PbiEmbedService.cs:19-25 | Conversely, a non-null answer comes only from a fully resolved chain, and it is the resolved parameter's `CurrentValue` |
| `PbiEmbedService.NoValueWithoutGroup` | PowerBI.Proxies/PbiEmbedService.cs:20-23 | A group name that matches nothing gives null after the group listing alone |
| `PbiEmbedService.AmbiguousGroupPropagates` | PowerBI.Proxies/PbiEmbedService.cs:19-25 | An ambiguous group name reaches the caller as `MoreThanOneMatch`, not as null |
| `PbiEmbedService.BlankNameRejectedFirst` | PowerBI.Proxies/PbiEmbedService.cs:19 | Any blank name gives `ArgumentNull` naming the first blank argument, with no REST call |
| `PbiEmbedService.TenantScenario` | PowerBI.Proxies/PbiEmbedService.cs:19-25 | Any service that lists one workspace "TenantA" (id 7), holding dataset "SalesReport" (id "d1") with parameter "RefreshDate" = "2024-01-01". Queried as "tenanta", "SalesReport", "REFRESHDATE", the answer is "2024-01-01" after exactly the calls `GetGroups`, `GetDatasetsInGroup(7)`, `GetParametersInGroup(7, "d1")` |

## Left out

- Token acquisition (`AadService`): the MSAL public and confidential clients, the on-disk token cache, and the silent-then-password fallback. These are foreign library calls and I/O.
- `GetPowerBIClient` and the `using` disposal of the client in `PbiEmbedService`. `GetPowerBIClient` is not part of this model. In the source the client, and with it a token, is obtained before any name is validated. An authentication failure would therefore surface before an `ArgumentNull`; the model starts from the snapshot and does not capture that order.
- `async`, `Task` and `CancellationToken`. The model is sequential and cannot be cancelled. In the source the token is not passed to the parameter listing call (PowerBI.Proxies/PowerBIClientExtensions.cs:153).
- Failures of the REST calls themselves, such as an unknown id or a network error. The snapshot answers every call with a listing or a null.
- Strings.EqualsIgnoreCase: folds only the ASCII letters. `OrdinalIgnoreCase` also pairs non-ASCII letters by their upper-case mapping, which is Unicode data outside this model.
- Null `Name` fields on listed items: in the source these throw `NullReferenceException`; the model's names are always strings.
- The data-carrier records (`EmbedParams`, `EmbedReport`, `PowerBI`, `PowerBIReportParameter`): they have no behaviour. No overload taking a `PowerBIReportParameter` exists in the modelled code.
- The integration test `PowerBICustomizedClientTests`: it needs real credentials and the network, and asserts nothing about name resolution.
