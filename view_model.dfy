/** `RunConfigurationsViewModel`: the panel's local state (search query, selection,
    status message, type and language filters) and the two commands that forward to
    the host's provider.

    The provider's work is not part of this model: a call into it is represented by
    its `Outcome`, the current window id and project path by parameters read at the
    moment the command runs, and a block started with `scope.launch` by running it to
    completion before the command returns. */
module ViewModel {
  import opened RunConfigData

  /** How the provider call inside a launched block ended. */
  datatype Outcome = Returned | Threw(message: Option<string>)

  /** The five state flows the view-model owns. */
  datatype PanelState = PanelState(
    searchQuery: string,
    selectedConfigId: Option<string>,
    statusMessage: Option<string>,
    filterType: Option<ConfigType>,
    filterLanguage: Option<Language>
  )

  const InitialState := PanelState("", None, None, None, None)

  /** `"${e.message}"`: a null exception message is rendered as the text "null". */
  function MessageText(message: Option<string>): string {
    match message
    case Some(m) => m
    case None => "null"
  }

  /** The provider call completed normally. With no provider the safe call
      `provider?.scanProject(...)` does nothing and so cannot throw. */
  predicate CallSucceeded(providerInjected: bool, outcome: Outcome) {
    !providerInjected || outcome.Returned?
  }

  /** `scanProject` launches its block only when both the project path and the
      window id are known; an empty path is not refused here. */
  predicate ScanRuns(projectPath: Option<string>, windowId: Option<string>) {
    projectPath.Some? && windowId.Some?
  }

  /** `execute` launches its block only when the window id is known. */
  predicate ExecuteRuns(windowId: Option<string>) {
    windowId.Some?
  }

  const ScanComplete := "Scan complete"
  const ScanFailedPrefix := "Scan failed: "
  const StartedPrefix := "Started: "
  const FailedToRunPrefix := "Failed to run: "

  /** The status a finished scan leaves: "Scan complete" exactly when the call
      succeeded, otherwise "Scan failed: " and the exception's message. */
  function ScanStatus(providerInjected: bool, outcome: Outcome): (r: string)
    ensures r == ScanComplete <==> CallSucceeded(providerInjected, outcome)
    ensures !CallSucceeded(providerInjected, outcome) ==>
      ScanFailedPrefix <= r && r[|ScanFailedPrefix|..] == MessageText(outcome.message)
  {
    if CallSucceeded(providerInjected, outcome) then ScanComplete
    else
      var r := ScanFailedPrefix + MessageText(outcome.message);
      assert r[5] != ScanComplete[5];
      r
  }

  /** The status shown while the execute call is in flight. */
  function RunningStatus(name: string): string {
    "Running " + name + "..."
  }

  /** The status a finished execute leaves: "Started: <name>" exactly when the call
      succeeded, otherwise "Failed to run: " and the exception's message. */
  function ExecuteStatus(providerInjected: bool, name: string, outcome: Outcome): (r: string)
    ensures StartedPrefix <= r && r[|StartedPrefix|..] == name <==> CallSucceeded(providerInjected, outcome)
    ensures !CallSucceeded(providerInjected, outcome) ==>
      FailedToRunPrefix <= r && r[|FailedToRunPrefix|..] == MessageText(outcome.message)
  {
    if CallSucceeded(providerInjected, outcome) then StartedPrefix + name
    else
      var r := FailedToRunPrefix + MessageText(outcome.message);
      assert r[0] != StartedPrefix[0];
      r
  }

  class RunConfigurationsViewModel {
    /** Whether the host injected a `RunConfigurationDataProvider`; fixed at construction. */
    const providerInjected: bool

    var searchQuery: string
    var selectedConfigId: Option<string>
    var statusMessage: Option<string>
    var filterType: Option<ConfigType>
    var filterLanguage: Option<Language>

    /** Every value assigned to the status message, oldest first. */
    ghost var statusWrites: seq<Option<string>>

    function State(): PanelState
      reads this
    {
      PanelState(searchQuery, selectedConfigId, statusMessage, filterType, filterLanguage)
    }

    /** A fresh view-model: empty query, and no selection, status or filters. */
    constructor (providerInjected: bool)
      ensures this.providerInjected == providerInjected
      ensures State() == InitialState
      ensures statusWrites == []
    {
      this.providerInjected := providerInjected;
      searchQuery := "";
      selectedConfigId := None;
      statusMessage := None;
      filterType := None;
      filterLanguage := None;
      statusWrites := [];
    }

    /** `isAvailable()`: a provider was injected. */
    function IsAvailable(): (r: bool)
      ensures r <==> providerInjected
    {
      providerInjected
    }

    /** `hasProject()`: the host reports a project path and it is not empty. It stays a
        member of the view-model, as in the plugin, but reads no field: the project
        path comes from the host, so it is a parameter. */
    static function HasProject(projectPath: Option<string>): (r: bool)
      ensures r <==> projectPath.Some? && projectPath.value != ""
    {
      match projectPath
      case None => false
      case Some(p) => |p| > 0
    }

    /** `scanProject()`: with a project path and a window id, the provider scans and
        the status reports the outcome; otherwise nothing happens. Only the status
        message is ever written. */
    method ScanProject(projectPath: Option<string>, windowId: Option<string>, outcome: Outcome)
      modifies this
      ensures !ScanRuns(projectPath, windowId) ==>
        State() == old(State()) && statusWrites == old(statusWrites)
      ensures ScanRuns(projectPath, windowId) ==>
        && State() == old(State()).(statusMessage := Some(ScanStatus(providerInjected, outcome)))
        && statusWrites == old(statusWrites) + [Some(ScanStatus(providerInjected, outcome))]
    {
      if projectPath.Some? && windowId.Some? {
        var status: string;
        if providerInjected && outcome.Threw? {
          status := ScanFailedPrefix + MessageText(outcome.message);
        } else {
          status := ScanComplete;
        }
        statusMessage := Some(status);
        statusWrites := statusWrites + [statusMessage];
      }
    }

    /** `initialize()`: the first scan, run when the panel is first shown. */
    method Initialize(projectPath: Option<string>, windowId: Option<string>, outcome: Outcome)
      modifies this
      ensures !ScanRuns(projectPath, windowId) ==>
        State() == old(State()) && statusWrites == old(statusWrites)
      ensures ScanRuns(projectPath, windowId) ==>
        && State() == old(State()).(statusMessage := Some(ScanStatus(providerInjected, outcome)))
        && statusWrites == old(statusWrites) + [Some(ScanStatus(providerInjected, outcome))]
    {
      ScanProject(projectPath, windowId, outcome);
    }

    /** `execute(config)`: with a window id, the status first says the configuration is
        running and then reports the outcome; otherwise nothing happens. Only the status
        message is ever written. */
    method Execute(config: RunConfiguration, windowId: Option<string>, outcome: Outcome)
      modifies this
      ensures !ExecuteRuns(windowId) ==>
        State() == old(State()) && statusWrites == old(statusWrites)
      ensures ExecuteRuns(windowId) ==>
        && State() == old(State()).(statusMessage := Some(ExecuteStatus(providerInjected, config.name, outcome)))
        && statusWrites == old(statusWrites)
             + [Some(RunningStatus(config.name)), Some(ExecuteStatus(providerInjected, config.name, outcome))]
    {
      if windowId.Some? {
        statusMessage := Some("Running " + config.name + "...");
        statusWrites := statusWrites + [statusMessage];
        if providerInjected && outcome.Threw? {
          statusMessage := Some(FailedToRunPrefix + MessageText(outcome.message));
        } else {
          statusMessage := Some(StartedPrefix + config.name);
        }
        statusWrites := statusWrites + [statusMessage];
      }
    }

    /** `select(configId)`. */
    method Select(configId: string)
      modifies this
      ensures selectedConfigId == Some(configId)
      ensures State() == old(State()).(selectedConfigId := Some(configId))
      ensures statusWrites == old(statusWrites)
    {
      selectedConfigId := Some(configId);
    }

    /** `updateSearchQuery(query)`. */
    method UpdateSearchQuery(query: string)
      modifies this
      ensures searchQuery == query
      ensures State() == old(State()).(searchQuery := query)
      ensures statusWrites == old(statusWrites)
    {
      searchQuery := query;
    }

    /** `setTypeFilter(type)`; `None` clears the filter. */
    method SetTypeFilter(t: Option<ConfigType>)
      modifies this
      ensures filterType == t
      ensures State() == old(State()).(filterType := t)
      ensures statusWrites == old(statusWrites)
    {
      filterType := t;
    }

    /** `setLanguageFilter(language)`; `None` clears the filter. */
    method SetLanguageFilter(language: Option<Language>)
      modifies this
      ensures filterLanguage == language
      ensures State() == old(State()).(filterLanguage := language)
      ensures statusWrites == old(statusWrites)
    {
      filterLanguage := language;
    }

    /** `clearStatusMessage()`: dismisses the status; doing it twice is doing it once. */
    method ClearStatusMessage()
      modifies this
      ensures statusMessage == None
      ensures State() == old(State()).(statusMessage := None)
      ensures statusWrites == old(statusWrites) + [None]
    {
      statusMessage := None;
      statusWrites := statusWrites + [statusMessage];
    }
  }

  /** The scan's guard is weaker than `hasProject()`: an empty project path hides the
      list behind the no-project screen, yet a scan requested with it still runs. */
  lemma ScanRunsWithEmptyProjectPath(windowId: string)
    ensures !RunConfigurationsViewModel.HasProject(Some(""))
    ensures ScanRuns(Some(""), Some(windowId))
  {
  }

  /** A client of the contracts: a status dismissed twice stays dismissed, and the
      second dismissal changes no field. */
  method ClearStatusTwice(vm: RunConfigurationsViewModel)
    modifies vm
    ensures vm.State() == old(vm.State()).(statusMessage := None)
  {
    vm.ClearStatusMessage();
    ghost var once := vm.State();
    vm.ClearStatusMessage();
    assert vm.State() == once;
  }

  /** A client of the contracts: an execute that reaches the provider leaves the
      query, selection and filters as they were, whatever the outcome. */
  method ExecuteKeepsSearchAndFilters(
    vm: RunConfigurationsViewModel, config: RunConfiguration, windowId: Option<string>, outcome: Outcome)
    modifies vm
    ensures vm.searchQuery == old(vm.searchQuery) && vm.selectedConfigId == old(vm.selectedConfigId)
    ensures vm.filterType == old(vm.filterType) && vm.filterLanguage == old(vm.filterLanguage)
  {
    vm.Execute(config, windowId, outcome);
  }
}
