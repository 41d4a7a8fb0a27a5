# Run Configurations panel — verified model

A Dafny model of the logic inside the "Run Configurations" panel plugin. The panel lists
the runnable entry points (main functions, scripts, tests) that the host application has
detected in a project. It lets the user search them, shows them grouped by language, and
forwards "scan" and "run" requests to a host-supplied `RunConfigurationDataProvider`.

Two parts of the plugin are modelled:

- **The view-model** (`RunConfigurationsViewModel`, module `ViewModel`, file `view_model.dfy`).
  A Dafny class with the five state fields the view-model owns: search query, selected id,
  status message, type filter and language filter. It has the setter and clear methods and
  the two guarded commands `scanProject` and `execute`. Every method states its whole new
  state in terms of the old one. A ghost field `statusWrites` logs every value assigned to
  the status message, so the two writes `execute` makes in sequence are visible.
- **The pure presentation logic of `RunConfigurationsContent.kt`**, as functions and lemmas:
  - the search filter (module `Search`);
  - `groupBy { it.language }` and the rows of the list (module `Grouping`);
  - the relative path of an item, the icon and colour tables, and the choice of screen and
    of list body (module `Presentation`).
  - The Kotlin string operations these rest on (`isBlank`, `contains(ignoreCase = true)`,
    `removePrefix`) are in module `Text`. The host's record and enumerations are in module
    `RunConfigData`.

What is proved, in short:

- A blank query leaves the list unchanged. A non-blank query keeps an order-preserving
  subsequence, exactly the matching configurations with their multiplicities. Filtering is
  idempotent and indifferent to the letter case of the query.
- `groupBy` is modelled as the standard library's fold into an insertion-ordered map. It is
  proved equal to a reference grouping: the distinct languages in order of first appearance,
  each with the order-preserving sublist of its configurations. The order of the reference's
  keys is itself proved against the position of each language's first configuration.
- From that: the groups partition the list, every configuration is in exactly the group of
  its own language, and no configuration is lost or duplicated. The header counts sum to the
  list's length, and each header is followed by exactly `count` items of its language.
- The case-insensitive search agrees with a plain substring test on lower-cased strings.
- The relative path drops the working directory and then one "/". The test on the working
  directory is a test on text, as in the code: a path whose text does not start with it loses
  only a leading "/", and a file in a sibling directory whose name extends the working
  directory's name is shown with that text cut off ("/w/ab/x.kt" under "/w/a" shows "b/x.kt").
- The icon and colour tables are total and injective. UNKNOWN maps to the terminal icon and
  to Gray, and every colour is fully opaque.
- An empty project path shows the no-project screen, but a scan requested with it still runs.
  This follows the code.

Environment and host inputs are parameters:

- the window id and project path the host reports when a command runs;
- the outcome of the provider call, `Returned` or `Threw(message)`;
- whether a provider was injected;
- the host's scanning flag and detected list;
- the language display-name table.

A block started with `scope.launch` is modelled as running to completion before the command
returns. With no provider, the safe call `provider?.scanProject(...)` does nothing and cannot
throw, so the success status is set. An exception whose message is null is rendered as
"null", as Kotlin's string template does.

## Model

| member | source | states |
|---|---|---|
| `ViewModel.RunConfigurationsViewModel.constructor` | src/main/kotlin/ai/rever/boss/plugin/dynamic/runconfigurations/RunConfigurationsViewModel.kt:18-37 | a new view-model has an empty query and no selection, status, type filter or language filter; it remembers whether a provider was injected |
| `ViewModel.RunConfigurationsViewModel.IsAvailable` | src/main/kotlin/ai/rever/boss/plugin/dynamic/runconfigurations/RunConfigurationsViewModel.kt:147-149 | true exactly when a provider was injected |
| `ViewModel.RunConfigurationsViewModel.HasProject` | src/main/kotlin/ai/rever/boss/plugin/dynamic/runconfigurations/RunConfigurationsViewModel.kt:154-157 | true exactly when the project path is present and non-empty |
| `ViewModel.RunConfigurationsViewModel.ScanProject` | src/main/kotlin/ai/rever/boss/plugin/dynamic/runconfigurations/RunConfigurationsViewModel.kt:67-80 | without a project path or a window id nothing changes; otherwise exactly one status write, the scan's outcome status, and no other field changes |
| `ViewModel.RunConfigurationsViewModel.Initialize` | src/main/kotlin/ai/rever/boss/plugin/dynamic/runconfigurations/RunConfigurationsViewModel.kt:60-62 | the same effect as a scan |
| `ViewModel.RunConfigurationsViewModel.Execute` | src/main/kotlin/ai/rever/boss/plugin/dynamic/runconfigurations/RunConfigurationsViewModel.kt:85-98 | without a window id nothing changes; otherwise the status is written twice, "Running <name>..." and then the outcome status, and no other field changes |
| `ViewModel.RunConfigurationsViewModel.Select` | src/main/kotlin/ai/rever/boss/plugin/dynamic/runconfigurations/RunConfigurationsViewModel.kt:103-105 | the selected id becomes exactly the given id; nothing else changes |
| `ViewModel.RunConfigurationsViewModel.UpdateSearchQuery` | src/main/kotlin/ai/rever/boss/plugin/dynamic/runconfigurations/RunConfigurationsViewModel.kt:110-112 | the query becomes the given text; nothing else changes |
| `ViewModel.RunConfigurationsViewModel.SetTypeFilter` | src/main/kotlin/ai/rever/boss/plugin/dynamic/runconfigurations/RunConfigurationsViewModel.kt:117-119 | the type filter becomes the given value, `None` included; nothing else changes |
| `ViewModel.RunConfigurationsViewModel.SetLanguageFilter` | src/main/kotlin/ai/rever/boss/plugin/dynamic/runconfigurations/RunConfigurationsViewModel.kt:124-126 | the language filter becomes the given value, `None` included; nothing else changes |
| `ViewModel.RunConfigurationsViewModel.ClearStatusMessage` | src/main/kotlin/ai/rever/boss/plugin/dynamic/runconfigurations/RunConfigurationsViewModel.kt:131-133 | the status becomes `None`; nothing else changes |
| `ViewModel.ClearStatusTwice` | src/main/kotlin/ai/rever/boss/plugin/dynamic/runconfigurations/RunConfigurationsViewModel.kt:131-133 | clearing the status twice has the effect of clearing it once |
| `ViewModel.ExecuteKeepsSearchAndFilters` | src/main/kotlin/ai/rever/boss/plugin/dynamic/runconfigurations/RunConfigurationsViewModel.kt:85-98 | whatever the outcome, execute leaves query, selection and filters as they were |
| `ViewModel.ScanStatus` | src/main/kotlin/ai/rever/boss/plugin/dynamic/runconfigurations/RunConfigurationsViewModel.kt:72-77 | "Scan complete" exactly when the call succeeded (or no provider was called); otherwise "Scan failed: " followed by the exception message |
| `ViewModel.ExecuteStatus` | src/main/kotlin/ai/rever/boss/plugin/dynamic/runconfigurations/RunConfigurationsViewModel.kt:89-95 | "Started: <name>" exactly when the call succeeded; otherwise "Failed to run: " followed by the exception message |
| `ViewModel.RunningStatus` | src/main/kotlin/ai/rever/boss/plugin/dynamic/runconfigurations/RunConfigurationsViewModel.kt:90 | the in-flight text "Running <name>..."; no contract of its own: `Execute` states that it is the first of the two status writes, before the outcome status |
| `ViewModel.ScanRunsWithEmptyProjectPath` | src/main/kotlin/ai/rever/boss/plugin/dynamic/runconfigurations/RunConfigurationsViewModel.kt:68-70 | an empty project path fails `hasProject()` yet passes the scan's guard |
| `Text.CharEqualsIgnoreCaseIsLowerEquality` | src/main/kotlin/ai/rever/boss/plugin/dynamic/runconfigurations/RunConfigurationsContent.kt:169-171 | the ignore-case character comparison is equality of lower-cased characters |
| `Text.IsBlank` | src/main/kotlin/ai/rever/boss/plugin/dynamic/runconfigurations/RunConfigurationsContent.kt:164 | empty or whitespace only; no contract of its own: `SearchFilter` states that a blank query returns the list, and `SearchFilterIgnoresQueryCase` that lower-casing keeps a query blank or not blank |
| `Text.ContainsIgnoreCase` | src/main/kotlin/ai/rever/boss/plugin/dynamic/runconfigurations/RunConfigurationsContent.kt:169-171 | `contains(q, ignoreCase = true)` as a search over start positions; no contract of its own: `ContainsIgnoreCaseIsLoweredSubstring` states its meaning |
| `Text.ContainsIgnoreCaseIsLoweredSubstring` | src/main/kotlin/ai/rever/boss/plugin/dynamic/runconfigurations/RunConfigurationsContent.kt:169-171 | `contains(q, ignoreCase = true)` holds exactly when lower-cased q is a substring of the lower-cased text |
| `Text.ContainsIgnoreCaseOfLoweredQuery` | src/main/kotlin/ai/rever/boss/plugin/dynamic/runconfigurations/RunConfigurationsContent.kt:169-171 | lower-casing the query does not change the containment test |
| `Text.RemovePrefix` | src/main/kotlin/ai/rever/boss/plugin/dynamic/runconfigurations/RunConfigurationsContent.kt:566-568 | when the text starts with the prefix, prefix plus result is the text; otherwise the result is the text |
| `Search.KeepMatching` | src/main/kotlin/ai/rever/boss/plugin/dynamic/runconfigurations/RunConfigurationsContent.kt:168-172 | an order-preserving subsequence holding exactly the matching configurations, each as often as in the input |
| `Search.Matches` | src/main/kotlin/ai/rever/boss/plugin/dynamic/runconfigurations/RunConfigurationsContent.kt:168-171 | the filter lambda: name, file path or display name contains the query ignoring case; no contract of its own: `KeepMatching` keeps exactly the configurations it accepts, and `MatchesIgnoresQueryCase` states its indifference to case |
| `Search.SearchFilter` | src/main/kotlin/ai/rever/boss/plugin/dynamic/runconfigurations/RunConfigurationsContent.kt:164-174 | a blank query yields the list unchanged; otherwise an order-preserving subsequence of exactly the configurations whose name, file path or language display name contains the query ignoring case |
| `Search.KeepMatchingAllMatch` | src/main/kotlin/ai/rever/boss/plugin/dynamic/runconfigurations/RunConfigurationsContent.kt:168-172 | a list whose elements all match is filtered to itself |
| `Search.SearchFilterIdempotent` | src/main/kotlin/ai/rever/boss/plugin/dynamic/runconfigurations/RunConfigurationsContent.kt:164-174 | filtering twice with the same query equals filtering once |
| `Search.MatchesIgnoresQueryCase` | src/main/kotlin/ai/rever/boss/plugin/dynamic/runconfigurations/RunConfigurationsContent.kt:169-171 | a configuration matches a query exactly when it matches the lower-cased query |
| `Search.SearchFilterIgnoresQueryCase` | src/main/kotlin/ai/rever/boss/plugin/dynamic/runconfigurations/RunConfigurationsContent.kt:164-174 | the filtered list does not depend on the letter case of the query |
| `Grouping.IndexOfLanguage` | src/main/kotlin/ai/rever/boss/plugin/dynamic/runconfigurations/RunConfigurationsContent.kt:178 | the first group keyed by the language, or past the end when there is none |
| `Grouping.AddToGroup` | src/main/kotlin/ai/rever/boss/plugin/dynamic/runconfigurations/RunConfigurationsContent.kt:178 | one `getOrPut(...).add` step: the configuration joins the end of its language's group, or opens a new last group; no contract of its own: `AddToGroupAddsOne` states its effect |
| `Grouping.AddToGroupAddsOne` | src/main/kotlin/ai/rever/boss/plugin/dynamic/runconfigurations/RunConfigurationsContent.kt:178 | one step adds exactly the given configuration to the groups taken together, and keeps distinct keys distinct |
| `Grouping.GroupByLanguage` | src/main/kotlin/ai/rever/boss/plugin/dynamic/runconfigurations/RunConfigurationsContent.kt:177-179 | the groups together hold the same multiset as the list, so their sizes sum to its length, and no language keys two groups; `GroupByLanguageIsReference` and `GroupByLanguagePartitions` state the rest |
| `Grouping.LanguagesSnoc` | src/main/kotlin/ai/rever/boss/plugin/dynamic/runconfigurations/RunConfigurationsContent.kt:178 | appending a configuration adds its language to the end of the reference keys exactly when no earlier configuration has it |
| `Grouping.LanguagesInFirstAppearanceOrder` | src/main/kotlin/ai/rever/boss/plugin/dynamic/runconfigurations/RunConfigurationsContent.kt:178 | the reference keys come in the order of the first configuration of each language, each of which exists |
| `Grouping.Languages` | src/main/kotlin/ai/rever/boss/plugin/dynamic/runconfigurations/RunConfigurationsContent.kt:177-179 | the distinct languages of the list, exactly those some configuration has |
| `Grouping.OfLanguageSpec` | src/main/kotlin/ai/rever/boss/plugin/dynamic/runconfigurations/RunConfigurationsContent.kt:178 | one language's sublist is order-preserving and holds exactly that language's configurations with their multiplicities |
| `Grouping.GroupByLanguageIsReference` | src/main/kotlin/ai/rever/boss/plugin/dynamic/runconfigurations/RunConfigurationsContent.kt:177-179 | the insertion fold of `groupBy` equals the reference: distinct languages in order of first appearance, each with its order-preserving sublist |
| `Grouping.GroupByLanguagePartitions` | src/main/kotlin/ai/rever/boss/plugin/dynamic/runconfigurations/RunConfigurationsContent.kt:177-179 | one group per language present, none empty, each an order-preserving sublist of exactly its language's configurations |
| `Grouping.GroupOfConfiguration` | src/main/kotlin/ai/rever/boss/plugin/dynamic/runconfigurations/RunConfigurationsContent.kt:177-179 | each configuration is in the group of its own language and in no other group |
| `Grouping.GroupsInFirstAppearanceOrder` | src/main/kotlin/ai/rever/boss/plugin/dynamic/runconfigurations/RunConfigurationsContent.kt:177-179 | the groups of `groupBy` come in the order in which their languages first appear in the list |
| `Grouping.Rows` | src/main/kotlin/ai/rever/boss/plugin/dynamic/runconfigurations/RunConfigurationsContent.kt:335-351 | one header with the group's size, then its items, group after group; no contract of its own: `RowsShowFlatten` and `RowsWellFormed` state its shape |
| `Grouping.RowsShowFlatten` | src/main/kotlin/ai/rever/boss/plugin/dynamic/runconfigurations/RunConfigurationsContent.kt:335-351 | the item rows list the groups' configurations group after group, and the header counts sum to their number |
| `Grouping.RowsWellFormed` | src/main/kotlin/ai/rever/boss/plugin/dynamic/runconfigurations/RunConfigurationsContent.kt:335-351 | each header is followed by exactly its count of items of its language, then by the next header or the end |
| `Grouping.GroupedRows` | src/main/kotlin/ai/rever/boss/plugin/dynamic/runconfigurations/RunConfigurationsContent.kt:335-351 | the grouped list shows every configuration once, header counts sum to the list length, each header counts its items |
| `Presentation.LanguageIcon` | src/main/kotlin/ai/rever/boss/plugin/dynamic/runconfigurations/RunConfigurationsContent.kt:600-611 | a brand logo exactly for the named languages; the terminal icon for UNKNOWN |
| `Presentation.LanguageIconInjective` | src/main/kotlin/ai/rever/boss/plugin/dynamic/runconfigurations/RunConfigurationsContent.kt:600-611 | different languages get different icons |
| `Presentation.ConfigTypeIcon` | src/main/kotlin/ai/rever/boss/plugin/dynamic/runconfigurations/RunConfigurationsContent.kt:626-633 | never a brand logo; the terminal icon exactly for scripts |
| `Presentation.ConfigTypeIconInjective` | src/main/kotlin/ai/rever/boss/plugin/dynamic/runconfigurations/RunConfigurationsContent.kt:626-633 | different configuration types get different icons |
| `Presentation.LanguageColor` | src/main/kotlin/ai/rever/boss/plugin/dynamic/runconfigurations/RunConfigurationsContent.kt:613-624 | every colour has alpha 0xFF; Gray exactly for UNKNOWN |
| `Presentation.LanguageColorInjective` | src/main/kotlin/ai/rever/boss/plugin/dynamic/runconfigurations/RunConfigurationsContent.kt:613-624 | different languages get different colours |
| `Presentation.RelativePath` | src/main/kotlin/ai/rever/boss/plugin/dynamic/runconfigurations/RunConfigurationsContent.kt:566-568 | the result is a suffix of the file path, shorter by at most the working directory's length plus one |
| `Presentation.RelativePathBelowDirectory` | src/main/kotlin/ai/rever/boss/plugin/dynamic/runconfigurations/RunConfigurationsContent.kt:566-568 | for `workingDirectory + "/" + rest` the result is `rest` |
| `Presentation.RelativePathWithoutDirectoryPrefix` | src/main/kotlin/ai/rever/boss/plugin/dynamic/runconfigurations/RunConfigurationsContent.kt:566-568 | a path whose text does not start with the working directory's text loses only a single leading "/", if present |
| `Presentation.RelativePathSiblingDirectory` | src/main/kotlin/ai/rever/boss/plugin/dynamic/runconfigurations/RunConfigurationsContent.kt:566-568 | the working directory is removed as text: a path that continues it with anything but "/" (a sibling directory with a longer name) shows the continuation |
| `Presentation.RelativePathSiblingExample` | src/main/kotlin/ai/rever/boss/plugin/dynamic/runconfigurations/RunConfigurationsContent.kt:566-568 | "/w/ab/x.kt" under the working directory "/w/a" is shown as "b/x.kt" |
| `Presentation.RelativePathOfDirectory` | src/main/kotlin/ai/rever/boss/plugin/dynamic/runconfigurations/RunConfigurationsContent.kt:566-568 | the working directory itself is shown as the empty path |
| `Presentation.RelativePathKeepsSecondSlash` | src/main/kotlin/ai/rever/boss/plugin/dynamic/runconfigurations/RunConfigurationsContent.kt:566-568 | after the working directory only one "/" is removed |
| `Presentation.SelectScreen` | src/main/kotlin/ai/rever/boss/plugin/dynamic/runconfigurations/RunConfigurationsContent.kt:66-72 | exactly one screen: no-provider when unavailable, else no-project without a project, else the list |
| `Presentation.NoMatchMessage` | src/main/kotlin/ai/rever/boss/plugin/dynamic/runconfigurations/RunConfigurationsContent.kt:304 | the empty-search text quoting the query; no contract of its own: `SelectListBody` states that it is shown, with the search icon and no hint, exactly when a non-blank query matches nothing |
| `Presentation.SelectListBody` | src/main/kotlin/ai/rever/boss/plugin/dynamic/runconfigurations/RunConfigurationsContent.kt:261-322 | exactly one body: scanning placeholder iff scanning with nothing detected; else the empty placeholder iff the filtered list is empty, with icon, text and hint chosen by whether the query is blank; else the grouped rows of the filtered list |
| `Presentation.BlankQueryShowsEverything` | src/main/kotlin/ai/rever/boss/plugin/dynamic/runconfigurations/RunConfigurationsContent.kt:286-317 | with a blank query the empty placeholder appears exactly when nothing was detected and scanning is over, and the grouped list shows every detected configuration |
| `Presentation.DetectedListHidesScanningPlaceholder` | src/main/kotlin/ai/rever/boss/plugin/dynamic/runconfigurations/RunConfigurationsContent.kt:261-262 | once something is detected the scanning placeholder is not shown, even during a rescan |

## Left out

- Compose rendering is not modelled: surfaces, rows, sizes, `alpha` copies of colours (floating point), the scrollbar and `LazyColumn` keys. The list's rows are modelled as a sequence of header and item rows.
- The error banner, the status banner and the scan button are not modelled. Their visibility, label and enabled state are single `if`s on `lastError`, `statusMessage` and `isScanning`.
- Coroutines are not modelled: `scope.launch`, interleaving of launched blocks, cancellation, and `StateFlow` reactivity and conflation. Each launched block runs to completion at once. `statusWrites` records assignments, not flow emissions.
- Only exceptions are modelled. A `Throwable` that is not an `Exception` would escape the `catch`, and this is out of scope.
- `clearError` is not modelled. It only forwards to the host provider and has no local state.
- The provider's scanning, execution and error-reporting behaviour is not modelled. The provider is a host interface that is not part of this model; its results enter only as the `Outcome` parameter and the scanning flag and detected list passed to `SelectListBody`.
- The texts of `LanguageData.displayName` are host data and are not part of this model. The search takes them as a `Language -> string` parameter.
- Letter case and whitespace are ASCII only. Case mapping covers 'A'-'Z' and 'a'-'z'. `Text.IsWhitespace` covers 0x09-0x0D, 0x1C-0x1F and space. Unicode case folding and Unicode space separators are not modelled.
- `filterType` and `filterLanguage` are stored and set, but nothing in the panel reads them, so no filtering by type or language is modelled.
- The `?: return` exits of `ConfigurationsList` are not modelled. They apply when the provider's flows are absent, which the screen selection already rules out.
- RunConfigurationsComponent.kt, RunConfigurationsDynamicPlugin.kt and RunConfigurationsInfo.kt are not modelled. They are host wiring and static metadata.
- A second view file with different filtering rules (independent type and language filters, search over name and path only) is not part of this model. The rules modelled here are those of RunConfigurationsContent.kt.
