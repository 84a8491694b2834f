/**
 * The dual-authorisation execution guard (backend/app/services/execution_guard.py).
 * Every order goes through two switches: the backend's global
 * `execution_enabled` setting and a UI "armed" flag, given with the request
 * or remembered by the guard.
 */
module ExecutionGuard {

  /** The application settings object; only its execution switch matters here. */
  class Settings {
    var executionEnabled: bool

    /** Settings at their declared defaults: execution is off. */
    constructor ()
      ensures !executionEnabled
    {
      executionEnabled := false;
    }
  }

  /** The textual reasons of `is_execution_allowed`. */
  datatype Reason =
    | BackendDisabled   // "Backend execution is disabled (EXECUTION_ENABLED=false)"
    | UiNotArmed        // "UI is not armed (ARMED toggle disabled)"
    | Authorized        // "Execution authorized"

  datatype Verdict = Verdict(allowed: bool, reason: Reason)

  /** The dictionary returned by `get_execution_status`. */
  datatype ExecutionStatus = ExecutionStatus(backendEnabled: bool, executionAllowed: bool)

  class Guard {
    var uiArmed: bool
    const settings: Settings

    /** A new guard is not armed. */
    constructor (settings: Settings)
      ensures this.settings == settings && !uiArmed
    {
      this.settings := settings;
      uiArmed := false;
    }

    /**
     * `is_execution_allowed(ui_armed)`: the backend switch is checked first;
     * then the request flag, with the stored flag standing in when the
     * request flag is false.
     */
    function IsExecutionAllowed(requestArmed: bool): (v: Verdict)
      reads this, settings
      ensures v.allowed <==> settings.executionEnabled && (requestArmed || uiArmed)
      ensures v.allowed <==> v.reason == Authorized
      ensures !settings.executionEnabled ==> v.reason == BackendDisabled
      ensures settings.executionEnabled && !requestArmed && !uiArmed ==> v.reason == UiNotArmed
    {
      if !settings.executionEnabled then Verdict(false, BackendDisabled)
      else
        var uiCheck := if requestArmed then requestArmed else uiArmed;
        if !uiCheck then Verdict(false, UiNotArmed)
        else Verdict(true, Authorized)
    }

    /** `set_execution_enabled`: changes the global switch and nothing else. */
    method SetExecutionEnabled(enabled: bool)
      modifies settings
      ensures settings.executionEnabled == enabled
      ensures uiArmed == old(uiArmed)
    {
      settings.executionEnabled := enabled;
    }

    /** `toggle`: changes the stored UI flag and nothing else. */
    method Toggle(armed: bool)
      modifies this
      ensures uiArmed == armed
      ensures settings.executionEnabled == old(settings.executionEnabled)
    {
      uiArmed := armed;
    }

    /** `get_execution_status`: both entries are the backend switch. */
    function GetExecutionStatus(): (s: ExecutionStatus)
      reads this, settings
      ensures s.backendEnabled == s.executionAllowed
      ensures IsExecutionAllowed(true).allowed <==> s.executionAllowed
    {
      ExecutionStatus(settings.executionEnabled, settings.executionEnabled)
    }
  }

  /** The status does not look at the UI flag: guards that share a backend switch report the same. */
  lemma StatusIgnoresUi(g: Guard, h: Guard)
    requires g.settings.executionEnabled == h.settings.executionEnabled
    ensures g.GetExecutionStatus() == h.GetExecutionStatus()
  {}

  /** A granted request implies the status reports execution as allowed. */
  lemma AllowedImpliesStatus(g: Guard, requestArmed: bool)
    requires g.IsExecutionAllowed(requestArmed).allowed
    ensures g.GetExecutionStatus().executionAllowed
  {}

  /** A freshly built guard over default settings denies every request, for the backend reason. */
  method FreshGuardDenies(requestArmed: bool) returns (v: Verdict)
    ensures !v.allowed && v.reason == BackendDisabled
  {
    var settings := new Settings();
    var guard := new Guard(settings);
    v := guard.IsExecutionAllowed(requestArmed);
  }

  /** Arming the UI through `toggle` makes requests without the flag pass once the backend is on. */
  method ArmedThroughToggle(g: Guard) returns (v: Verdict)
    modifies g, g.settings
    ensures v.allowed && v.reason == Authorized
  {
    g.SetExecutionEnabled(true);
    g.Toggle(true);
    v := g.IsExecutionAllowed(false);
  }
}
