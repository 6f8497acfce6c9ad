/** The effects the application performs on its state: toasts, the refresh
    protocol and its timer, instance actions, auto-stop scheduling,
    long-running alerts, the settings draft transaction, and the handling of
    results posted by background work. Each is a pure function from the
    state (plus the clock and the world) to the next state. */
module Actions {
  import opened Common
  import opened Config
  import opened Logger
  import opened UserSettings
  import opened Aws
  import opened AppState

  // ---------------------------------------------------------------------------
  // Messages: the fixed texts of status lines, toasts and log entries, named
  // once so that every operation and its contract refer to the same text.
  // ---------------------------------------------------------------------------

  const ERROR_STATUS: string := "Error: "
  const SESSION_EXPIRED_LOG: string := "AWS session token expired - credentials need refresh"
  const EC2_LOAD_FAILED: string := "Failed to load EC2 instances: "
  const LAMBDA_LOAD_FAILED: string := "Failed to load Lambda functions: "
  const LOADED: string := "Loaded "
  const EC2_INSTANCES_SUFFIX: string := " EC2 instances"
  const LAMBDA_FUNCTIONS_SUFFIX: string := " Lambda functions"
  const REFRESHED_EC2: string := "Refreshed EC2: "
  const REFRESHED_LAMBDA: string := "Refreshed Lambda: "
  const INSTANCES_LOADED_SUFFIX: string := " instances loaded"
  const FUNCTIONS_LOADED_SUFFIX: string := " functions loaded"
  const NOTHING_TO_REFRESH: string := "Nothing to refresh on this screen"
  const STARTING: string := "Starting"
  const STOPPING: string := "Stopping"
  const TERMINATING: string := "Terminating"
  const STARTED: string := "Started"
  const STOPPED: string := "Stopped"
  const TERMINATED: string := "Terminated"
  const START_VERB: string := "start"
  const STOP_VERB: string := "stop"
  const TERMINATE_VERB: string := "terminate"
  const CHECK_MARK: string := "\U{2713} "
  const CROSS_FAILED_TO: string := "\U{2717} Failed to "
  const EC2_INSTANCE_INFIX: string := " EC2 instance: "
  const FAILED_TO: string := "Failed to "
  const SCHEDULED_TOAST: string := "\U{23F0} Scheduled: "
  const SCHEDULED_STATUS: string := "Scheduled auto-stop for "
  const AT_INFIX: string := " at "
  const ALERT_PREFIX: string := "\U{26A0}\U{FE0F} Instance "
  const ALERT_RUNNING_FOR: string := ") running for "
  const ALERT_SUFFIX: string := " without auto-stop!"
  const SETTINGS_OPENED: string := "Opened settings dialog"
  const SETTINGS_SAVED: string := "Settings saved"
  const SETTINGS_SAVE_FAILED: string := "Failed to save settings: "
  const SETTINGS_CANCELLED: string := "Settings dialog cancelled"
  const TEST_ALERT_TOAST: string := "\U{1F514} Test Alert: System Sound Working"
  const TEST_ALERT_LOG: string := "Triggered test alert sound"
  const SSO_LOGIN_STATUS: string := "Initiating AWS SSO Login..."
  const SSO_LOGIN_TOAST: string := "\U{1F511} Starting AWS SSO login... check browser"
  const SSO_LOGIN_LOG: string := "Spawned 'aws sso login' thread"
  const LOGIN_SUCCESSFUL: string := "Login successful"
  const DEFAULT_PROFILE: string := "default"
  const SWITCHING_STATUS: string := "Switching to profile: "
  const SWITCHING_TOAST: string := "\U{1F504} Switching to profile '"
  const SWITCHING_TOAST_SUFFIX: string := "'..."
  const SET_PROFILE_LOG: string := "Set AWS_PROFILE="
  const REINIT_CLIENT_SUFFIX: string := " and re-initializing client"
  const LOGIN_SUCCESS_TOAST: string := "\U{2705} Login successful! Activating profile..."
  const SSO_CONFIG_MISSING_TOAST: string := "\U{274C} SSO Config Missing. Run 'aws configure sso'"
  const SSO_CONFIG_ERROR_LOG: string := "SSO Config Error: "
  const SSO_CONFIG_MISSING_STATUS: string := "SSO Configuration Missing!"
  const LOGIN_FAILED_TOAST: string := "\U{274C} Login Failed: "
  const LOGIN_FAILED_LOG: string := "Login failed: "
  const ACTIVE_PROFILE_TOAST: string := "\U{2705} Active Profile: "
  const SWITCH_FAILED_TOAST: string := "Failed to switch profile"
  const SWITCH_FAILED_LOG: string := "Failed to switch profile: "

  // ---------------------------------------------------------------------------
  // Toasts
  // ---------------------------------------------------------------------------

  /** A toast is shown while its whole-second age is below this. */
  const TOAST_LIFETIME_SECS: int := 5

  /** Shows a toast: it goes after every toast already shown, stamped with
      the current time, and nothing else changes. */
  function AddToast(app: App, message: string, toastType: ToastType, now: int): (r: App)
    ensures |r.toasts| == |app.toasts| + 1 && r.toasts[..|app.toasts|] == app.toasts
    ensures r.toasts[|app.toasts|] == Toast(message, toastType, now)
    ensures r == app.(toasts := r.toasts)
  {
    app.(toasts := app.toasts + [Toast(message, toastType, now)])
  }

  /** The toasts still young enough to show, in their original order. */
  function FreshToasts(ts: seq<Toast>, now: int): (r: seq<Toast>)
    ensures |r| <= |ts|
    ensures forall t :: t in r <==> t in ts && now - t.createdAt < TOAST_LIFETIME_SECS
    decreases |ts|
  {
    if |ts| == 0 then []
    else if now - ts[0].createdAt < TOAST_LIFETIME_SECS then [ts[0]] + FreshToasts(ts[1..], now)
    else FreshToasts(ts[1..], now)
  }

  /** Filtering commutes with concatenation, so the kept toasts keep their order. */
  lemma {:induction false} FreshToastsAppend(a: seq<Toast>, b: seq<Toast>, now: int)
    ensures FreshToasts(a + b, now) == FreshToasts(a, now) + FreshToasts(b, now)
    decreases |a|
  {
    if |a| == 0 {
      assert a + b == b;
    } else {
      assert (a + b)[1..] == a[1..] + b;
      FreshToastsAppend(a[1..], b, now);
    }
  }

  /** Cleaning twice at the same instant removes nothing more. */
  lemma {:induction false} FreshToastsIdempotent(ts: seq<Toast>, now: int)
    ensures FreshToasts(FreshToasts(ts, now), now) == FreshToasts(ts, now)
    decreases |ts|
  {
    if |ts| > 0 {
      FreshToastsIdempotent(ts[1..], now);
      if now - ts[0].createdAt < TOAST_LIFETIME_SECS {
        var rest := FreshToasts(ts[1..], now);
        assert ([ts[0]] + rest)[1..] == rest;
      }
    }
  }

  /** Drops every toast aged 5 seconds or more; nothing else changes. */
  function CleanupOldToasts(app: App, now: int): (r: App)
    ensures forall t :: t in r.toasts <==> t in app.toasts && now - t.createdAt < TOAST_LIFETIME_SECS
    ensures r == app.(toasts := r.toasts)
  {
    app.(toasts := FreshToasts(app.toasts, now))
  }

  /** A toast survives a cleanup exactly while it is less than 5 seconds old. */
  lemma ToastVisibleForFiveSeconds(app: App, message: string, toastType: ToastType, createdAt: int, now: int)
    ensures Toast(message, toastType, createdAt) in CleanupOldToasts(AddToast(app, message, toastType, createdAt), now).toasts
            <==> now - createdAt < 5
  {
  }

  // ---------------------------------------------------------------------------
  // Session-expiry classification
  // ---------------------------------------------------------------------------

  /** The one long fragment, the full text of the service's expired-token message. */
  const REQUEST_TOKEN_EXPIRED: string := "the security token included in the request is expired"

  /** Lower-case fragments that mark an error as an expired or invalid session. */
  const SESSION_EXPIRED_KEYWORDS: seq<string> := [
    "expiredtoken",
    "expired token",
    "token is expired",
    "security token",
    "invalidtoken",
    "invalid token",
    "credentials have expired",
    REQUEST_TOKEN_EXPIRED,
    "requestexpired",
    "request has expired",
    "authfailure"
  ]

  /** Whether some needle occurs in `s`, trying them in order: the chain of
      `contains` calls succeeds exactly when one of the needles occurs. */
  function ContainsAny(s: string, needles: seq<string>): (r: bool)
    ensures r <==> exists k :: 0 <= k < |needles| && Contains(s, needles[k])
    decreases |needles|
  {
    if |needles| == 0 then false
    else
      assert forall k :: 1 <= k < |needles| ==> needles[k] == needles[1..][k - 1];
      Contains(s, needles[0]) || ContainsAny(s, needles[1..])
  }

  /** An error reads as an expired session when its lower-cased text
      contains one of the keywords. */
  function IsSessionExpiredError(message: string): (r: bool)
    ensures r <==>
      exists k :: 0 <= k < |SESSION_EXPIRED_KEYWORDS| && Contains(Lower(message), SESSION_EXPIRED_KEYWORDS[k])
  {
    ContainsAny(Lower(message), SESSION_EXPIRED_KEYWORDS)
  }

  /** The classification ignores ASCII case. */
  lemma SessionExpiryIgnoresCase(message: string)
    ensures IsSessionExpiredError(Upper(message)) == IsSessionExpiredError(message)
  {
    LowerOfUpper(message);
  }

  /** Text around a classified error does not change the verdict. */
  lemma SessionExpirySurvivesContext(before: string, message: string, after: string)
    requires IsSessionExpiredError(message)
    ensures IsSessionExpiredError(before + message + after)
  {
    var k :| 0 <= k < |SESSION_EXPIRED_KEYWORDS| && Contains(Lower(message), SESSION_EXPIRED_KEYWORDS[k]);
    LowerAppend(before, message);
    LowerAppend(before + message, after);
    ContainsPrepend(Lower(before), Lower(message), SESSION_EXPIRED_KEYWORDS[k]);
    ContainsExtend(Lower(before) + Lower(message), Lower(after), SESSION_EXPIRED_KEYWORDS[k]);
  }

  /** The provider's expired-token error is classified, whatever its case. */
  lemma ExpiredTokenErrorIsClassified()
    ensures IsSessionExpiredError("ExpiredToken: token expired")
  {
    var lowered := Lower("ExpiredToken: token expired");
    assert lowered == "expiredtoken" + ": token expired";
    assert OccursAt(lowered, SESSION_EXPIRED_KEYWORDS[0], 0);
  }

  /** The first keywords each have a letter ('r' or 'y') that
      "accessdenied: no such bucket" lacks. */
  lemma NoEarlyKeywordInAccessDenied()
    ensures forall k :: 0 <= k < 4 ==>
      !Contains("accessdenied: no such bucket", SESSION_EXPIRED_KEYWORDS[k])
  {
    var denied := "accessdenied: no such bucket";
    MissingCharNotContained(denied, "expiredtoken", 4);
    MissingCharNotContained(denied, "expired token", 4);
    MissingCharNotContained(denied, "token is expired", 13);
    MissingCharNotContained(denied, "security token", 7);
  }

  /** So do the next ones ('l' or 'r'). */
  lemma NoMiddleKeywordInAccessDenied()
    ensures forall k :: 4 <= k < 7 ==>
      !Contains("accessdenied: no such bucket", SESSION_EXPIRED_KEYWORDS[k])
  {
    var denied := "accessdenied: no such bucket";
    MissingCharNotContained(denied, "invalidtoken", 4);
    MissingCharNotContained(denied, "invalid token", 4);
    MissingCharNotContained(denied, "credentials have expired", 21);
  }

  /** And the last ones ('r'). */
  lemma NoLateKeywordInAccessDenied()
    ensures forall k :: 7 <= k < |SESSION_EXPIRED_KEYWORDS| ==>
      !Contains("accessdenied: no such bucket", SESSION_EXPIRED_KEYWORDS[k])
  {
    var denied := "accessdenied: no such bucket";
    MissingCharNotContained(denied, REQUEST_TOKEN_EXPIRED, 50);
    MissingCharNotContained(denied, "requestexpired", 11);
    MissingCharNotContained(denied, "request has expired", 16);
    MissingCharNotContained(denied, "authfailure", 9);
  }

  /** An access-denied error is not mistaken for an expired session. */
  lemma AccessDeniedErrorIsNotClassified()
    ensures !IsSessionExpiredError("accessdenied: no such bucket")
  {
    assert Lower("accessdenied: no such bucket") == "accessdenied: no such bucket";
    NoEarlyKeywordInAccessDenied();
    NoMiddleKeywordInAccessDenied();
    NoLateKeywordInAccessDenied();
  }

  // ---------------------------------------------------------------------------
  // Refreshing
  // ---------------------------------------------------------------------------

  /** The screens whose refresh reloads the instance list. */
  predicate ShowsInstances(s: Screen)
  {
    s == Ec2 || s == Home
  }

  /** The error of the listing call a refresh makes on the current screen, if it fails. */
  function RefreshError(app: App, world: World): (r: Option<string>)
  {
    if ShowsInstances(app.currentScreen) then
      match Ec2Listing(world.describeInstances(app.client))
      case Ok(_) => None
      case Err(e) => Some(e)
    else if app.currentScreen == Lambda then
      match LambdaListing(world.listFunctions(app.client))
      case Ok(_) => None
      case Err(e) => Some(e)
    else None
  }

  /** Reports a failed listing; an expired session opens its dialog. */
  function ReportRefreshFailure(a: App, what: string, error: string, now: int): (r: App)
    ensures Steady(a, r)
    ensures IsSessionExpiredError(error) ==> r.dialog == SessionExpired && r.dialogScrollOffset == 0
    ensures !IsSessionExpiredError(error) ==> r.dialog == a.dialog && r.dialogScrollOffset == a.dialogScrollOffset
    ensures r == a.(statusMessage := r.statusMessage, dialog := r.dialog,
                    dialogScrollOffset := r.dialogScrollOffset, log := r.log)
  {
    var a' := a.(statusMessage := ERROR_STATUS + error, log := LogError(a.log, what + error, now));
    if IsSessionExpiredError(error) then
      a'.(dialog := SessionExpired, dialogScrollOffset := 0,
          log := LogWarning(a'.log, SESSION_EXPIRED_LOG, now))
    else a'
  }

  /** A refresh on the Home or EC2 screen: only the instance list is reloaded. */
  function RefreshInstances(app: App, world: World, now: int): (r: App)
    ensures Steady(app, r)
    ensures Ec2Listing(world.describeInstances(app.client)).Ok? ==>
      r.ec2Instances == Ec2Listing(world.describeInstances(app.client)).value &&
      r.dialog == app.dialog && r.dialogScrollOffset == app.dialogScrollOffset
    ensures Ec2Listing(world.describeInstances(app.client)).Err? ==>
      var failed := ReportRefreshFailure(app, EC2_LOAD_FAILED, Ec2Listing(world.describeInstances(app.client)).error, now);
      r == failed.(isLoading := false, lastRefresh := Some(now))
    ensures r == app.(statusMessage := r.statusMessage, isLoading := false, lastRefresh := Some(now),
                      ec2Instances := r.ec2Instances, dialog := r.dialog,
                      dialogScrollOffset := r.dialogScrollOffset, log := r.log)
  {
    match Ec2Listing(world.describeInstances(app.client))
    case Ok(instances) =>
      app.(ec2Instances := instances,
           statusMessage := LOADED + NatToString(|instances|) + EC2_INSTANCES_SUFFIX,
           log := LogSuccess(app.log, REFRESHED_EC2 + NatToString(|instances|) + INSTANCES_LOADED_SUFFIX, now),
           isLoading := false, lastRefresh := Some(now))
    case Err(e) =>
      ReportRefreshFailure(app, EC2_LOAD_FAILED, e, now).(isLoading := false, lastRefresh := Some(now))
  }

  /** A refresh on the Lambda screen: only the function list is reloaded. */
  function RefreshFunctions(app: App, world: World, now: int): (r: App)
    ensures Steady(app, r)
    ensures LambdaListing(world.listFunctions(app.client)).Ok? ==>
      r.lambdaFunctions == LambdaListing(world.listFunctions(app.client)).value &&
      r.dialog == app.dialog && r.dialogScrollOffset == app.dialogScrollOffset
    ensures LambdaListing(world.listFunctions(app.client)).Err? ==>
      var failed := ReportRefreshFailure(app, LAMBDA_LOAD_FAILED, LambdaListing(world.listFunctions(app.client)).error, now);
      r == failed.(isLoading := false, lastRefresh := Some(now))
    ensures r == app.(statusMessage := r.statusMessage, isLoading := false, lastRefresh := Some(now),
                      lambdaFunctions := r.lambdaFunctions, dialog := r.dialog,
                      dialogScrollOffset := r.dialogScrollOffset, log := r.log)
  {
    match LambdaListing(world.listFunctions(app.client))
    case Ok(functions) =>
      app.(lambdaFunctions := functions,
           statusMessage := LOADED + NatToString(|functions|) + LAMBDA_FUNCTIONS_SUFFIX,
           log := LogSuccess(app.log, REFRESHED_LAMBDA + NatToString(|functions|) + FUNCTIONS_LOADED_SUFFIX, now),
           isLoading := false, lastRefresh := Some(now))
    case Err(e) =>
      ReportRefreshFailure(app, LAMBDA_LOAD_FAILED, e, now).(isLoading := false, lastRefresh := Some(now))
  }

  /** Reloads the list the current screen shows. Loading ends and the
      refresh time is recorded; besides that only the status line, the two
      lists, the dialog and the log can change. */
  function RefreshData(app: App, world: World, now: int): (r: App)
    ensures Steady(app, r) && r.settings == app.settings
    ensures r.dialog == app.dialog || r.dialog == SessionExpired
    ensures r == app.(statusMessage := r.statusMessage, isLoading := false, lastRefresh := Some(now),
                      ec2Instances := r.ec2Instances, lambdaFunctions := r.lambdaFunctions,
                      dialog := r.dialog, dialogScrollOffset := r.dialogScrollOffset, log := r.log)
  {
    // The loading flag and the "Loading..." status are set first and always
    // overwritten before the function returns.
    if ShowsInstances(app.currentScreen) then RefreshInstances(app, world, now)
    else if app.currentScreen == Lambda then RefreshFunctions(app, world, now)
    else app.(statusMessage := NOTHING_TO_REFRESH, isLoading := false, lastRefresh := Some(now))
  }

  /** A successful listing replaces the list wholesale; a failed one, or a
      screen that lists nothing, keeps it. */
  lemma RefreshDataLoads(app: App, world: World, now: int)
    ensures ShowsInstances(app.currentScreen) && Ec2Listing(world.describeInstances(app.client)).Ok? ==>
      RefreshData(app, world, now).ec2Instances == Ec2Listing(world.describeInstances(app.client)).value
    ensures !(ShowsInstances(app.currentScreen) && Ec2Listing(world.describeInstances(app.client)).Ok?) ==>
      RefreshData(app, world, now).ec2Instances == app.ec2Instances
    ensures app.currentScreen == Lambda && LambdaListing(world.listFunctions(app.client)).Ok? ==>
      RefreshData(app, world, now).lambdaFunctions == LambdaListing(world.listFunctions(app.client)).value
    ensures !(app.currentScreen == Lambda && LambdaListing(world.listFunctions(app.client)).Ok?) ==>
      RefreshData(app, world, now).lambdaFunctions == app.lambdaFunctions
  {
  }

  /** After a successful EC2 refresh the k-th described instance is shown
      k-th, and one without a "Name" tag is shown under its id. */
  lemma RefreshNamesUntaggedById(app: App, world: World, now: int, k: nat)
    requires ShowsInstances(app.currentScreen) && world.describeInstances(app.client).Ok?
    requires k < |Flatten(world.describeInstances(app.client).value)|
    requires var raw := Flatten(world.describeInstances(app.client).value)[k];
      forall i :: 0 <= i < |raw.tags| ==> raw.tags[i].key != Some("Name")
    ensures var shown := RefreshData(app, world, now).ec2Instances;
      var raw := Flatten(world.describeInstances(app.client).value)[k];
      k < |shown| && shown[k] == ConvertInstance(raw) && shown[k].name == shown[k].id
  {
    RefreshDataLoads(app, world, now);
    UntaggedInstanceNamedById(Flatten(world.describeInstances(app.client).value)[k]);
  }

  /** A refresh opens the session-expired dialog exactly when its listing
      call fails with an error classified as an expired session; otherwise
      the dialog is left as it was. */
  lemma RefreshDataDetectsExpiry(app: App, world: World, now: int)
    ensures var e := RefreshError(app, world);
      var r := RefreshData(app, world, now);
      if e.Some? && IsSessionExpiredError(e.value) then r.dialog == SessionExpired && r.dialogScrollOffset == 0
      else r.dialog == app.dialog && r.dialogScrollOffset == app.dialogScrollOffset
  {
  }

  // ---------------------------------------------------------------------------
  // Auto-refresh timer
  // ---------------------------------------------------------------------------

  /** Refresh period while boost mode is on. */
  const BOOST_INTERVAL_SECS: nat := 5

  /** A state an instance settles in; the others are transitions. */
  predicate IsStableState(state: string)
  {
    state == "running" || state == "stopped" || state == "terminated"
  }

  function AllInstancesStable(instances: seq<Instance>): (r: bool)
    ensures r <==> forall i :: 0 <= i < |instances| ==> IsStableState(instances[i].state)
    decreases |instances|
  {
    |instances| == 0 || (IsStableState(instances[0].state) && AllInstancesStable(instances[1..]))
  }

  /** The timer is paused on the About screen and while any dialog is open. */
  predicate AutoRefreshPaused(app: App)
  {
    app.currentScreen == About || app.dialog != NoDialog
  }

  /** The period in force: 5 seconds while boosting, the configured interval otherwise. */
  function EffectiveInterval(boost: bool, interval: nat): (r: nat)
    ensures boost ==> r == BOOST_INTERVAL_SECS
    ensures !boost ==> r == interval
  {
    if boost then BOOST_INTERVAL_SECS else interval
  }

  /** A refresh is due when none happened yet or the whole seconds elapsed
      (read as unsigned, so a clock that went backwards reads as a huge
      elapsed time) reach the period. */
  predicate RefreshDue(lastRefresh: Option<int>, interval: nat, now: int)
  {
    lastRefresh.None? || AsU64(now - lastRefresh.value) >= interval
  }

  /** One timer check: unless paused, expire old toasts, leave boost mode once
      every instance is stable, and refresh when the period has elapsed. */
  function CheckAutoRefresh(app: App, world: World, now: int): (r: App)
    ensures AutoRefreshPaused(app) ==> r == app
    ensures !AutoRefreshPaused(app) ==>
      r.boostRefreshUntilStable == (app.boostRefreshUntilStable && !AllInstancesStable(app.ec2Instances))
    ensures !AutoRefreshPaused(app) ==>
      forall t :: t in r.toasts <==> t in app.toasts && now - t.createdAt < TOAST_LIFETIME_SECS
    ensures !AutoRefreshPaused(app) ==>
      var due := RefreshDue(app.lastRefresh, EffectiveInterval(r.boostRefreshUntilStable, app.autoRefreshInterval), now);
      (due ==> r.lastRefresh == Some(now) && !r.isLoading &&
               r == RefreshData(CleanupOldToasts(app, now).(boostRefreshUntilStable := r.boostRefreshUntilStable),
                                world, now)) &&
      (!due ==> r.lastRefresh == app.lastRefresh && r.ec2Instances == app.ec2Instances &&
                r.lambdaFunctions == app.lambdaFunctions && r.statusMessage == app.statusMessage)
    ensures Steady(app, r)
    ensures r.settings == app.settings && r.settingsDraft == app.settingsDraft
    ensures r.autoStopSchedules == app.autoStopSchedules && r.pendingAlerts == app.pendingAlerts
  {
    if AutoRefreshPaused(app) then app
    else
      var a := CleanupOldToasts(app, now);
      var a := if a.boostRefreshUntilStable && AllInstancesStable(a.ec2Instances)
               then a.(boostRefreshUntilStable := false) else a;
      if RefreshDue(a.lastRefresh, EffectiveInterval(a.boostRefreshUntilStable, a.autoRefreshInterval), now)
      then RefreshData(a, world, now)
      else a
  }

  /** When the timer fires, it reloads the list the screen shows from the
      cloud, with the same client; otherwise both lists stay as they are. */
  lemma CheckAutoRefreshReloads(app: App, world: World, now: int)
    requires !AutoRefreshPaused(app)
    ensures var r := CheckAutoRefresh(app, world, now);
      var due := RefreshDue(app.lastRefresh, EffectiveInterval(r.boostRefreshUntilStable, app.autoRefreshInterval), now);
      && (due && ShowsInstances(app.currentScreen) && Ec2Listing(world.describeInstances(app.client)).Ok? ==>
            r.ec2Instances == Ec2Listing(world.describeInstances(app.client)).value)
      && (due && app.currentScreen == Lambda && LambdaListing(world.listFunctions(app.client)).Ok? ==>
            r.lambdaFunctions == LambdaListing(world.listFunctions(app.client)).value)
      && (!due ==> r.ec2Instances == app.ec2Instances && r.lambdaFunctions == app.lambdaFunctions)
  {
    var r := CheckAutoRefresh(app, world, now);
    RefreshDataLoads(CleanupOldToasts(app, now).(boostRefreshUntilStable := r.boostRefreshUntilStable), world, now);
  }

  /** The countdown shown to the user: none while paused or before the first
      refresh, otherwise the period minus the elapsed seconds, saturating at 0. */
  function SecondsUntilRefresh(app: App, now: int): (r: Option<nat>)
    ensures r.None? <==> AutoRefreshPaused(app) || app.lastRefresh.None?
    ensures r.Some? ==> r.value <= EffectiveInterval(app.boostRefreshUntilStable, app.autoRefreshInterval)
    ensures r.Some? ==>
      var elapsed := AsU64(now - app.lastRefresh.value);
      var period := EffectiveInterval(app.boostRefreshUntilStable, app.autoRefreshInterval);
      && (elapsed < period ==> r.value + elapsed == period)
      && (elapsed >= period ==> r.value == 0)
  {
    if AutoRefreshPaused(app) then None
    else match app.lastRefresh
      case None => None
      case Some(last) =>
        Some(SatSub(EffectiveInterval(app.boostRefreshUntilStable, app.autoRefreshInterval), AsU64(now - last)))
  }

  /** The countdown reads 0 exactly when the timer would refresh (given that
      the boost flag is not about to be cleared). */
  lemma CountdownZeroIffDue(app: App, now: int)
    requires !AutoRefreshPaused(app) && app.lastRefresh.Some?
    ensures SecondsUntilRefresh(app, now) == Some(0) <==>
            RefreshDue(app.lastRefresh, EffectiveInterval(app.boostRefreshUntilStable, app.autoRefreshInterval), now)
  {
  }

  function ActivateBoostRefresh(app: App): (r: App)
    ensures r.boostRefreshUntilStable
    ensures r == app.(boostRefreshUntilStable := true)
  {
    app.(boostRefreshUntilStable := true)
  }

  // ---------------------------------------------------------------------------
  // Instance actions
  // ---------------------------------------------------------------------------

  datatype InstanceOp = StartOp | StopOp | TerminateOp

  function Progressive(op: InstanceOp): string
  {
    match op
    case StartOp => STARTING
    case StopOp => STOPPING
    case TerminateOp => TERMINATING
  }

  function PastTense(op: InstanceOp): string
  {
    match op
    case StartOp => STARTED
    case StopOp => STOPPED
    case TerminateOp => TERMINATED
  }

  function Verb(op: InstanceOp): string
  {
    match op
    case StartOp => START_VERB
    case StopOp => STOP_VERB
    case TerminateOp => TERMINATE_VERB
  }

  /** The cloud call behind an operation. */
  function CallInstanceOp(world: World, op: InstanceOp, client: Client, id: string): Outcome
  {
    match op
    case StartOp => world.startInstance(client, id)
    case StopOp => world.stopInstance(client, id)
    case TerminateOp => world.terminateInstance(client, id)
  }

  /** Runs an operation on instance `id` (shown as `name`). Success reports,
      enters boost mode and refreshes; failure reports and changes nothing
      else: neither the boost flag nor the instance list. */
  function RunInstanceOp(app: App, world: World, op: InstanceOp, id: string, name: string, now: int): (r: App)
    ensures Steady(app, r) && r.settings == app.settings
    ensures r.settingsDraft == app.settingsDraft && (r.dialog == app.dialog || r.dialog == SessionExpired)
    ensures CallInstanceOp(world, op, app.client, id) == Pass ==>
      && r.boostRefreshUntilStable
      && r.lastRefresh == Some(now) && !r.isLoading
      && r.toasts == app.toasts + [Toast(CHECK_MARK + PastTense(op) + ": " + name, SuccessToast, now)]
      && r == app.(statusMessage := r.statusMessage, isLoading := false, lastRefresh := Some(now),
                   ec2Instances := r.ec2Instances, lambdaFunctions := r.lambdaFunctions,
                   dialog := r.dialog, dialogScrollOffset := r.dialogScrollOffset, log := r.log,
                   toasts := r.toasts, boostRefreshUntilStable := true)
    ensures CallInstanceOp(world, op, app.client, id).Fail? ==>
      && r.toasts == app.toasts + [Toast(CROSS_FAILED_TO + Verb(op) + ": " + name, ErrorToast, now)]
      && r == app.(statusMessage := r.statusMessage, toasts := r.toasts, log := r.log)
  {
    var a := app.(statusMessage := Progressive(op) + " " + id + "...");
    match CallInstanceOp(world, op, app.client, id)
    case Pass =>
      var a := a.(statusMessage := PastTense(op) + " " + id);
      var a := AddToast(a, CHECK_MARK + PastTense(op) + ": " + name, SuccessToast, now);
      var a := a.(log := LogSuccess(a.log, PastTense(op) + EC2_INSTANCE_INFIX + name + " (" + id + ")", now));
      var a := ActivateBoostRefresh(a);
      RefreshData(a, world, now)
    case Fail(e) =>
      var a := a.(statusMessage := FAILED_TO + Verb(op) + ": " + e);
      var a := AddToast(a, CROSS_FAILED_TO + Verb(op) + ": " + name, ErrorToast, now);
      a.(log := LogError(a.log, FAILED_TO + Verb(op) + " " + name + ": " + e, now))
  }

  /** Whether the selection points at a listed instance. */
  predicate HasSelectedInstance(app: App)
  {
    app.ec2Selected < |app.ec2Instances|
  }

  /** Starts the selected instance; a selection past the list does nothing. */
  function StartSelectedInstance(app: App, world: World, now: int): (r: App)
    ensures Steady(app, r) && r.settings == app.settings
    ensures !HasSelectedInstance(app) ==> r == app
    ensures HasSelectedInstance(app) ==>
      var inst := app.ec2Instances[app.ec2Selected];
      r == RunInstanceOp(app, world, StartOp, inst.id, inst.name, now)
  {
    if HasSelectedInstance(app) then
      var inst := app.ec2Instances[app.ec2Selected];
      RunInstanceOp(app, world, StartOp, inst.id, inst.name, now)
    else app
  }

  /** Stops the selected instance; a selection past the list does nothing. */
  function StopSelectedInstance(app: App, world: World, now: int): (r: App)
    ensures Steady(app, r) && r.settings == app.settings
    ensures !HasSelectedInstance(app) ==> r == app
    ensures HasSelectedInstance(app) ==>
      var inst := app.ec2Instances[app.ec2Selected];
      r == RunInstanceOp(app, world, StopOp, inst.id, inst.name, now)
  {
    if HasSelectedInstance(app) then
      var inst := app.ec2Instances[app.ec2Selected];
      RunInstanceOp(app, world, StopOp, inst.id, inst.name, now)
    else app
  }

  /** Asks for confirmation before terminating the selected instance. */
  function ConfirmTerminateInstance(app: App): (r: App)
    ensures Steady(app, r) && r.settings == app.settings
    ensures !HasSelectedInstance(app) ==> r == app
    ensures HasSelectedInstance(app) ==>
      r == app.(dialog := ConfirmTerminate(app.ec2Instances[app.ec2Selected].id), dialogScrollOffset := 0)
  {
    if HasSelectedInstance(app) then
      app.(dialog := ConfirmTerminate(app.ec2Instances[app.ec2Selected].id), dialogScrollOffset := 0)
    else app
  }

  /** The name of the first listed instance with this id, or the id itself. */
  function InstanceName(instances: seq<Instance>, id: string): (name: string)
    ensures (forall i :: 0 <= i < |instances| ==> instances[i].id != id) ==> name == id
    ensures forall i :: 0 <= i < |instances| && instances[i].id == id ==>
      (forall j :: 0 <= j < i ==> instances[j].id != id) ==> name == instances[i].name
    decreases |instances|
  {
    if |instances| == 0 then id
    else if instances[0].id == id then instances[0].name
    else InstanceName(instances[1..], id)
  }

  /** Terminates the instance with this id, whether or not it is still listed;
      the toasts name it by its listed name, or by the id. On success the app
      enters boost mode and refreshes; on failure only the status, toasts and
      log change. */
  function TerminateInstance(app: App, world: World, id: string, now: int): (r: App)
    ensures Steady(app, r) && r.settings == app.settings
    ensures r.settingsDraft == app.settingsDraft && (r.dialog == app.dialog || r.dialog == SessionExpired)
    ensures world.terminateInstance(app.client, id) == Pass ==>
      && r.boostRefreshUntilStable
      && r.lastRefresh == Some(now) && !r.isLoading
      && r.toasts == app.toasts + [Toast(CHECK_MARK + TERMINATED + ": " + InstanceName(app.ec2Instances, id), SuccessToast, now)]
    ensures world.terminateInstance(app.client, id).Fail? ==>
      && r.toasts == app.toasts + [Toast(CROSS_FAILED_TO + TERMINATE_VERB + ": " + InstanceName(app.ec2Instances, id), ErrorToast, now)]
      && r == app.(statusMessage := r.statusMessage, toasts := r.toasts, log := r.log)
  {
    RunInstanceOp(app, world, TerminateOp, id, InstanceName(app.ec2Instances, id), now)
  }

  /** An instance that has left the list is still terminated by its id, and
      its toasts name it by that id. */
  lemma TerminateUnlistedInstance(app: App, world: World, id: string, now: int)
    requires forall i :: 0 <= i < |app.ec2Instances| ==> app.ec2Instances[i].id != id
    ensures var r := TerminateInstance(app, world, id, now);
      && (world.terminateInstance(app.client, id) == Pass ==>
            r.toasts == app.toasts + [Toast(CHECK_MARK + TERMINATED + ": " + id, SuccessToast, now)])
      && (world.terminateInstance(app.client, id).Fail? ==>
            r.toasts == app.toasts + [Toast(CROSS_FAILED_TO + TERMINATE_VERB + ": " + id, ErrorToast, now)])
  {
  }

  /** Asks how long the selected instance may run before it is stopped. */
  function OpenScheduleDialog(app: App): (r: App)
    ensures Steady(app, r) && r.settings == app.settings
    ensures !HasSelectedInstance(app) ==> r == app
    ensures HasSelectedInstance(app) ==>
      r == app.(dialog := ScheduleAutoStop(app.ec2Instances[app.ec2Selected].id), dialogScrollOffset := 0)
  {
    if HasSelectedInstance(app) then
      app.(dialog := ScheduleAutoStop(app.ec2Instances[app.ec2Selected].id), dialogScrollOffset := 0)
    else app
  }

  // ---------------------------------------------------------------------------
  // Auto-stop schedules
  // ---------------------------------------------------------------------------

  /** The largest duration, in seconds, the time library converts (i64::MAX milliseconds). */
  const CHRONO_MAX_SECS: nat := 9223372036854775

  /** The schedules for other instances, in order. */
  function RemoveSchedules(ss: seq<Schedule>, id: string): (r: seq<Schedule>)
    ensures |r| <= |ss|
    ensures forall s :: s in r <==> s in ss && s.instanceId != id
    decreases |ss|
  {
    if |ss| == 0 then []
    else if ss[0].instanceId == id then RemoveSchedules(ss[1..], id)
    else [ss[0]] + RemoveSchedules(ss[1..], id)
  }

  /** Removal commutes with concatenation: the survivors keep their order. */
  lemma {:induction false} RemoveSchedulesAppend(a: seq<Schedule>, b: seq<Schedule>, id: string)
    ensures RemoveSchedules(a + b, id) == RemoveSchedules(a, id) + RemoveSchedules(b, id)
    decreases |a|
  {
    if |a| == 0 {
      assert a + b == b;
    } else {
      assert (a + b)[1..] == a[1..] + b;
      RemoveSchedulesAppend(a[1..], b, id);
    }
  }

  /** Without an entry for the id, removal leaves the list as it is. */
  lemma {:induction false} RemoveSchedulesAbsent(ss: seq<Schedule>, id: string)
    requires forall k :: 0 <= k < |ss| ==> ss[k].instanceId != id
    ensures RemoveSchedules(ss, id) == ss
    decreases |ss|
  {
    if |ss| > 0 {
      RemoveSchedulesAbsent(ss[1..], id);
      assert [ss[0]] + ss[1..] == ss;
    }
  }

  /** No two schedules are for the same instance. */
  predicate UniqueScheduleIds(ss: seq<Schedule>)
  {
    forall i, j :: 0 <= i < j < |ss| ==> ss[i].instanceId != ss[j].instanceId
  }

  lemma {:induction false} RemoveSchedulesUnique(ss: seq<Schedule>, id: string)
    requires UniqueScheduleIds(ss)
    ensures UniqueScheduleIds(RemoveSchedules(ss, id))
    decreases |ss|
  {
    if |ss| > 0 {
      assert UniqueScheduleIds(ss[1..]) by {
        forall i, j | 0 <= i < j < |ss| - 1
          ensures ss[1..][i].instanceId != ss[1..][j].instanceId
        {
          assert ss[1..][i] == ss[i + 1] && ss[1..][j] == ss[j + 1];
        }
      }
      RemoveSchedulesUnique(ss[1..], id);
      var rest := RemoveSchedules(ss[1..], id);
      if ss[0].instanceId != id {
        forall j | 0 <= j < |rest|
          ensures ss[0].instanceId != rest[j].instanceId
        {
          assert rest[j] in ss[1..];
          var k :| 0 <= k < |ss[1..]| && ss[1..][k] == rest[j];
          assert ss[k + 1] == rest[j];
        }
        assert RemoveSchedules(ss, id) == [ss[0]] + rest;
      }
    }
  }

  /** Drops every schedule for `id` and appends the new one last. */
  function ReplaceSchedule(ss: seq<Schedule>, id: string, stopTime: int): (r: seq<Schedule>)
    ensures |r| > 0 && r[|r| - 1] == Schedule(id, stopTime)
    ensures forall k :: 0 <= k < |r| - 1 ==> r[k].instanceId != id
    ensures forall s :: s in ss && s.instanceId != id ==> s in r
    ensures forall s :: s in r ==> s in ss || s == Schedule(id, stopTime)
    ensures r[..|r| - 1] == RemoveSchedules(ss, id)
  {
    var kept := RemoveSchedules(ss, id);
    assert forall k :: 0 <= k < |kept| ==> kept[k] in kept;
    kept + [Schedule(id, stopTime)]
  }

  /** Replacing keeps at most one schedule per instance. */
  lemma ReplaceScheduleKeepsIdsUnique(ss: seq<Schedule>, id: string, stopTime: int)
    ensures UniqueScheduleIds(ss) ==> UniqueScheduleIds(ReplaceSchedule(ss, id, stopTime))
  {
    if UniqueScheduleIds(ss) {
      RemoveSchedulesUnique(ss, id);
    }
  }

  /** Two decimal digits, zero-padded. */
  function Pad2(n: nat): (r: string)
    requires n < 100
    ensures |r| == 2 && IsDigit(r[0]) && IsDigit(r[1])
    ensures ParseNat(r) == n
  {
    var r := if n < 10 then "0" + [DigitChar(n)] else [DigitChar(n / 10), DigitChar(n % 10)];
    assert r[..1][..0] == [];
    assert r[..1] == [r[0]];
    assert ParseNat(r[..1]) == DigitValue(r[0]);
    r
  }

  /** The UTC time of day of an instant, as HH:MM:SS. */
  function ClockTime(t: int): (r: string)
    ensures |r| == 8 && r[2] == ':' && r[5] == ':'
  {
    var secs := t % 86400;
    Pad2(secs / 3600) + ":" + Pad2(secs / 60 % 60) + ":" + Pad2(secs % 60)
  }

  /** The three fields of "HH:MM:SS" sit at fixed positions. */
  lemma ClockFields(h: string, m: string, s: string)
    requires |h| == 2 && |m| == 2 && |s| == 2
    ensures var r := h + ":" + m + ":" + s;
      r[0..2] == h && r[3..5] == m && r[6..8] == s
  {
    var r := h + ":" + m + ":" + s;
    assert r == h + ([':'] + m) + ([':'] + s);
  }

  /** Hours, minutes and seconds recombine to the second of the day. */
  lemma HoursMinutesSeconds(secs: nat)
    ensures secs / 3600 * 3600 + secs / 60 % 60 * 60 + secs % 60 == secs
  {
    var mins := secs / 60;
    assert mins * 60 + secs % 60 == secs;
    assert mins / 60 * 60 + mins % 60 == mins;
    assert secs / 3600 == mins / 60;
  }

  /** The clock text reads back as the second of the day it shows. */
  lemma ClockTimeReadsBack(t: int)
    ensures var r := ClockTime(t);
      (forall i :: 0 <= i < 8 && i != 2 && i != 5 ==> IsDigit(r[i])) &&
      ParseNat(r[0..2]) * 3600 + ParseNat(r[3..5]) * 60 + ParseNat(r[6..8]) == t % 86400
  {
    var secs := t % 86400;
    var h, m, s := Pad2(secs / 3600), Pad2(secs / 60 % 60), Pad2(secs % 60);
    ClockFields(h, m, s);
    HoursMinutesSeconds(secs);
  }

  /** Schedules instance `id` to stop `duration` seconds from now, replacing
      any earlier schedule for it; the other schedules stay as they were, in
      order. */
  function ScheduleInstanceAutoStop(app: App, id: string, duration: nat, now: int): (r: App)
    ensures Steady(app, r) && r.settings == app.settings
    requires duration <= CHRONO_MAX_SECS
    ensures |r.autoStopSchedules| > 0
    ensures r.autoStopSchedules[|r.autoStopSchedules| - 1] == Schedule(id, now + duration)
    ensures r.autoStopSchedules[..|r.autoStopSchedules| - 1] == RemoveSchedules(app.autoStopSchedules, id)
    ensures UniqueScheduleIds(app.autoStopSchedules) ==> UniqueScheduleIds(r.autoStopSchedules)
    ensures r.toasts == app.toasts + [Toast(SCHEDULED_TOAST + InstanceName(app.ec2Instances, id), SuccessToast, now)]
    ensures r == app.(autoStopSchedules := r.autoStopSchedules, statusMessage := r.statusMessage,
                      toasts := r.toasts, log := r.log)
  {
    var stopTime := now + duration;
    var name := InstanceName(app.ec2Instances, id);
    ReplaceScheduleKeepsIdsUnique(app.autoStopSchedules, id, stopTime);
    var a := app.(autoStopSchedules := ReplaceSchedule(app.autoStopSchedules, id, stopTime),
                  statusMessage := SCHEDULED_STATUS + id + AT_INFIX + ClockTime(stopTime));
    var a := AddToast(a, SCHEDULED_TOAST + name, SuccessToast, now);
    a.(log := LogSuccess(a.log, SCHEDULED_STATUS + name + " (" + id + ") at " + ClockTime(stopTime), now))
  }

  // ---------------------------------------------------------------------------
  // Long-running alerts
  // ---------------------------------------------------------------------------

  /** Alerts are looked for at most this often. */
  const ALERT_CHECK_INTERVAL_SECS: int := 30

  /** Whole hours and the minutes within the hour, as "{h}h {m}m". */
  function FormatDuration(secs: nat): string
  {
    NatToString(secs / 3600) + "h " + NatToString(secs / 60 % 60) + "m"
  }

  /** The duration text reads back: the leading digits are the whole hours,
      then "h ", then the digits of the minutes within the hour, then "m". */
  lemma FormatDurationParses(secs: nat)
    ensures var r := FormatDuration(secs);
      var n := LeadingDigits(r);
      && n + 3 <= |r| && r[n..n + 2] == "h " && r[|r| - 1] == 'm'
      && AllDigits(r[..n]) && AllDigits(r[n + 2..|r| - 1])
      && ParseNat(r[..n]) == secs / 3600 && ParseNat(r[n + 2..|r| - 1]) == secs / 60 % 60
  {
    var h := NatToString(secs / 3600);
    var m := NatToString(secs / 60 % 60);
    var tail := "h " + m + "m";
    LeadingDigitsOf(h, tail);
    ParseNatToString(secs / 3600);
    ParseNatToString(secs / 60 % 60);
    assert FormatDuration(secs) == h + tail;
    assert (h + tail)[..|h|] == h;
    assert (h + tail)[|h| + 2..|h + tail| - 1] == m;
  }

  predicate AllDigits(s: string)
  {
    forall i :: 0 <= i < |s| ==> IsDigit(s[i])
  }

  /** Two digit runs in "{x}h {y}m" are determined by the text. */
  lemma HoursMinutesDigitsUnique(x1: string, y1: string, x2: string, y2: string)
    requires AllDigits(x1) && AllDigits(y1) && AllDigits(x2) && AllDigits(y2)
    requires x1 + "h " + y1 + "m" == x2 + "h " + y2 + "m"
    ensures x1 == x2 && y1 == y2
  {
    assert x1 + "h " + y1 + "m" == x1 + ("h " + y1 + "m");
    assert x2 + "h " + y2 + "m" == x2 + ("h " + y2 + "m");
    DigitRunUnique(x1, "h " + y1 + "m", x2, "h " + y2 + "m");
    assert ("h " + y1 + "m")[2..] == y1 + "m";
    assert ("h " + y2 + "m")[2..] == y2 + "m";
    DigitRunUnique(y1, "m", y2, "m");
  }

  /** "{h}h {m}m" determines both numbers. */
  lemma HoursMinutesTextUnique(h1: nat, m1: nat, h2: nat, m2: nat)
    requires NatToString(h1) + "h " + NatToString(m1) + "m" == NatToString(h2) + "h " + NatToString(m2) + "m"
    ensures h1 == h2 && m1 == m2
  {
    HoursMinutesDigitsUnique(NatToString(h1), NatToString(m1), NatToString(h2), NatToString(m2));
    NatToStringInjective(h1, h2);
    NatToStringInjective(m1, m2);
  }

  /** The text determines the hours and minutes it was made from. */
  lemma FormatDurationReadsBack(secs: nat, hours: nat, minutes: nat)
    requires FormatDuration(secs) == NatToString(hours) + "h " + NatToString(minutes) + "m"
    ensures hours == secs / 3600 && minutes == secs / 60 % 60
  {
    HoursMinutesTextUnique(secs / 3600, secs / 60 % 60, hours, minutes);
  }

  /** The alert text for an instance that has been running for `running` seconds. */
  function AlertMessage(inst: Instance, running: nat): string
  {
    ALERT_PREFIX + inst.name + " (" + inst.id + ALERT_RUNNING_FOR
      + FormatDuration(running) + ALERT_SUFFIX
  }

  /** Two alerts for the same instance have the same text exactly when they
      show the same hours and minutes: alerts are de-duplicated by text, so a
      still-running instance is reported again each time the minutes shown change. */
  lemma AlertMessageKeyedByMinute(inst: Instance, d1: nat, d2: nat)
    ensures AlertMessage(inst, d1) == AlertMessage(inst, d2) <==>
            d1 / 3600 == d2 / 3600 && d1 / 60 % 60 == d2 / 60 % 60
  {
    if AlertMessage(inst, d1) == AlertMessage(inst, d2) {
      var prefix := ALERT_PREFIX + inst.name + " (" + inst.id + ALERT_RUNNING_FOR;
      var suffix := ALERT_SUFFIX;
      var f1, f2 := FormatDuration(d1), FormatDuration(d2);
      assert AlertMessage(inst, d1) == prefix + f1 + suffix;
      assert AlertMessage(inst, d2) == prefix + f2 + suffix;
      assert (prefix + f1 + suffix)[|prefix|..] == f1 + suffix;
      assert (prefix + f2 + suffix)[|prefix|..] == f2 + suffix;
      assert (f1 + suffix)[..|f1|] == f1;
      assert (f2 + suffix)[..|f2|] == f2;
      assert f1 == f2;
      FormatDurationReadsBack(d1, d2 / 3600, d2 / 60 % 60);
    }
  }

  /** The threshold in force: the configured one, or one hour when the time
      library cannot represent it. */
  function ThresholdInForce(alerts: AlertConfig): (r: nat)
    ensures alerts.alertThresholdSecs <= CHRONO_MAX_SECS ==> r == alerts.alertThresholdSecs
    ensures alerts.alertThresholdSecs > CHRONO_MAX_SECS ==> r == 3600
  {
    if alerts.alertThresholdSecs <= CHRONO_MAX_SECS then alerts.alertThresholdSecs else 3600
  }

  predicate HasSchedule(ss: seq<Schedule>, id: string)
  {
    exists k :: 0 <= k < |ss| && ss[k].instanceId == id
  }

  /** A running instance without an auto-stop schedule whose running time
      exceeds the threshold. */
  predicate NeedsAlert(inst: Instance, schedules: seq<Schedule>, threshold: nat, now: int)
  {
    && inst.state == "running"
    && !HasSchedule(schedules, inst.id)
    && inst.launchTime.Some?
    && now - inst.launchTime.value > threshold
  }

  /** The alert text for an instance at time `now`. */
  function AlertText(inst: Instance, now: int): string
    requires inst.launchTime.Some? && now >= inst.launchTime.value
  {
    AlertMessage(inst, now - inst.launchTime.value)
  }

  /** `msg` is the alert of some listed instance that needs one. */
  predicate AlertJustified(msg: string, instances: seq<Instance>, schedules: seq<Schedule>, threshold: nat, now: int)
  {
    exists i :: 0 <= i < |instances| && NeedsAlert(instances[i], schedules, threshold, now) &&
                msg == AlertText(instances[i], now)
  }

  predicate NoDuplicateAlerts(alerts: seq<string>)
  {
    forall i, j :: 0 <= i < j < |alerts| ==> alerts[i] != alerts[j]
  }

  /** `n` alert sounds. */
  function Sounds(n: nat): (r: seq<Effect>)
    ensures |r| == n
    ensures forall i :: 0 <= i < n ==> r[i] == PlayAlertSound
  {
    seq(n, _ => PlayAlertSound)
  }

  /** The part of the state an alert check writes: the pending alerts, the
      dialog with its scroll position, and the effects. */
  datatype AlertBook = AlertBook(pending: seq<string>, dialog: Dialog, scroll: nat, effects: seq<Effect>)

  /** Raises the alert for one instance unless it is already pending. */
  function AlertOne(b: AlertBook, inst: Instance, schedules: seq<Schedule>, threshold: nat, sound: bool, now: int): AlertBook
  {
    if NeedsAlert(inst, schedules, threshold, now) && AlertText(inst, now) !in b.pending then
      var msg := AlertText(inst, now);
      AlertBook(b.pending + [msg], Alert(msg), 0, if sound then b.effects + [PlayAlertSound] else b.effects)
    else b
  }

  /** Raises the alerts for a list of instances, in order; the pending list only grows. */
  function AlertEach(b: AlertBook, instances: seq<Instance>, schedules: seq<Schedule>, threshold: nat, sound: bool, now: int): (r: AlertBook)
    ensures |b.pending| <= |r.pending| && r.pending[..|b.pending|] == b.pending
    decreases |instances|
  {
    if |instances| == 0 then b
    else
      var b1 := AlertOne(b, instances[0], schedules, threshold, sound, now);
      var r := AlertEach(b1, instances[1..], schedules, threshold, sound, now);
      assert r.pending[..|b.pending|] == r.pending[..|b1.pending|][..|b.pending|];
      r
  }

  /** The dialog shows the newest alert, scrolled to the top, whenever one was
      raised, and is left alone otherwise. */
  lemma {:induction false} AlertEachShowsNewest(b: AlertBook, instances: seq<Instance>, schedules: seq<Schedule>, threshold: nat, sound: bool, now: int)
    ensures var r := AlertEach(b, instances, schedules, threshold, sound, now);
      && (|r.pending| == |b.pending| ==> r.dialog == b.dialog && r.scroll == b.scroll)
      && (|r.pending| > |b.pending| ==> r.dialog == Alert(r.pending[|r.pending| - 1]) && r.scroll == 0)
    decreases |instances|
  {
    if |instances| > 0 {
      AlertEachShowsNewest(AlertOne(b, instances[0], schedules, threshold, sound, now), instances[1..], schedules, threshold, sound, now);
    }
  }

  /** Each new alert plays one sound exactly when sound is enabled. */
  lemma {:induction false} AlertEachSounds(b: AlertBook, instances: seq<Instance>, schedules: seq<Schedule>, threshold: nat, sound: bool, now: int)
    ensures var r := AlertEach(b, instances, schedules, threshold, sound, now);
      r.effects == b.effects + (if sound then Sounds(|r.pending| - |b.pending|) else [])
    decreases |instances|
  {
    if |instances| == 0 {
      assert b.effects + [] == b.effects;
    } else {
      var b1 := AlertOne(b, instances[0], schedules, threshold, sound, now);
      var r := AlertEach(b1, instances[1..], schedules, threshold, sound, now);
      AlertEachSounds(b1, instances[1..], schedules, threshold, sound, now);
      if sound {
        assert b1.effects == b.effects + Sounds(|b1.pending| - |b.pending|);
        assert Sounds(|b1.pending| - |b.pending|) + Sounds(|r.pending| - |b1.pending|)
            == Sounds(|r.pending| - |b.pending|);
      } else {
        assert b1.effects == b.effects;
      }
    }
  }

  /** No alert is raised twice. */
  lemma {:induction false} AlertEachNoDuplicates(b: AlertBook, instances: seq<Instance>, schedules: seq<Schedule>, threshold: nat, sound: bool, now: int)
    requires NoDuplicateAlerts(b.pending)
    ensures NoDuplicateAlerts(AlertEach(b, instances, schedules, threshold, sound, now).pending)
    decreases |instances|
  {
    if |instances| > 0 {
      AlertEachNoDuplicates(AlertOne(b, instances[0], schedules, threshold, sound, now), instances[1..], schedules, threshold, sound, now);
    }
  }

  /** Every alert raised is the text of a listed instance that needs one. */
  lemma {:induction false} AlertEachJustified(b: AlertBook, instances: seq<Instance>, schedules: seq<Schedule>, threshold: nat, sound: bool, now: int)
    ensures forall k :: |b.pending| <= k < |AlertEach(b, instances, schedules, threshold, sound, now).pending| ==>
      AlertJustified(AlertEach(b, instances, schedules, threshold, sound, now).pending[k], instances, schedules, threshold, now)
    decreases |instances|
  {
    if |instances| > 0 {
      var b1 := AlertOne(b, instances[0], schedules, threshold, sound, now);
      var r := AlertEach(b1, instances[1..], schedules, threshold, sound, now);
      AlertEachJustified(b1, instances[1..], schedules, threshold, sound, now);
      forall k | |b.pending| <= k < |r.pending|
        ensures AlertJustified(r.pending[k], instances, schedules, threshold, now)
      {
        if k < |b1.pending| {
          assert r.pending[k] == r.pending[..|b1.pending|][k] == b1.pending[k];
          assert NeedsAlert(instances[0], schedules, threshold, now);
        } else {
          assert AlertJustified(r.pending[k], instances[1..], schedules, threshold, now);
          var i :| 0 <= i < |instances[1..]| && NeedsAlert(instances[1..][i], schedules, threshold, now) &&
                   r.pending[k] == AlertText(instances[1..][i], now);
          assert instances[1..][i] == instances[i + 1];
        }
      }
    }
  }

  /** Every listed instance that needs an alert has its text pending afterwards. */
  lemma {:induction false} AlertEachComplete(b: AlertBook, instances: seq<Instance>, schedules: seq<Schedule>, threshold: nat, sound: bool, now: int)
    ensures var r := AlertEach(b, instances, schedules, threshold, sound, now);
      forall i :: 0 <= i < |instances| && NeedsAlert(instances[i], schedules, threshold, now) ==>
        AlertText(instances[i], now) in r.pending
    decreases |instances|
  {
    if |instances| > 0 {
      var b1 := AlertOne(b, instances[0], schedules, threshold, sound, now);
      var r := AlertEach(b1, instances[1..], schedules, threshold, sound, now);
      AlertEachComplete(b1, instances[1..], schedules, threshold, sound, now);
      forall i | 0 <= i < |instances| && NeedsAlert(instances[i], schedules, threshold, now)
        ensures AlertText(instances[i], now) in r.pending
      {
        if i == 0 {
          var msg := AlertText(instances[0], now);
          assert msg in b1.pending;
          var j :| 0 <= j < |b1.pending| && b1.pending[j] == msg;
          assert r.pending[..|b1.pending|][j] == msg;
        } else {
          assert instances[1..][i - 1] == instances[i];
        }
      }
    }
  }

  /** Within 30 seconds of the last check nothing happens. */
  predicate AlertCheckThrottled(app: App, now: int)
  {
    app.lastAlertCheck.Some? && now - app.lastAlertCheck.value < ALERT_CHECK_INTERVAL_SECS
  }

  /** The periodic alert check: throttled to once per 30 seconds; otherwise it
      records the time and raises the alerts the instance list calls for,
      judged against the configured threshold and sound switch. Only the
      alert bookkeeping, the dialog and the effects change, and the pending
      list only grows. */
  function CheckAlerts(app: App, now: int): (r: App)
    ensures AlertCheckThrottled(app, now) ==> r == app
    ensures !AlertCheckThrottled(app, now) ==> r.lastAlertCheck == Some(now)
    ensures r == app.(lastAlertCheck := r.lastAlertCheck, pendingAlerts := r.pendingAlerts, dialog := r.dialog,
                      dialogScrollOffset := r.dialogScrollOffset, effects := r.effects)
    ensures |app.pendingAlerts| <= |r.pendingAlerts| && r.pendingAlerts[..|app.pendingAlerts|] == app.pendingAlerts
  {
    if AlertCheckThrottled(app, now) then app
    else
      var b := AlertEach(AlertBook(app.pendingAlerts, app.dialog, app.dialogScrollOffset, app.effects),
                         app.ec2Instances, app.autoStopSchedules, ThresholdInForce(app.config.alerts),
                         app.config.alerts.soundEnabled, now);
      app.(lastAlertCheck := Some(now), pendingAlerts := b.pending, dialog := b.dialog,
           dialogScrollOffset := b.scroll, effects := b.effects)
  }

  /** What an alert check raises: every running instance without an auto-stop
      schedule that has run longer than the configured threshold gets an
      alert, unless the same text is already pending; nothing else is raised
      and nothing is raised twice. */
  lemma CheckAlertsRaises(app: App, now: int)
    ensures NoDuplicateAlerts(app.pendingAlerts) ==> NoDuplicateAlerts(CheckAlerts(app, now).pendingAlerts)
    ensures forall k :: |app.pendingAlerts| <= k < |CheckAlerts(app, now).pendingAlerts| ==>
      AlertJustified(CheckAlerts(app, now).pendingAlerts[k], app.ec2Instances, app.autoStopSchedules,
                     ThresholdInForce(app.config.alerts), now)
    ensures !AlertCheckThrottled(app, now) ==>
      forall i :: 0 <= i < |app.ec2Instances| &&
                  NeedsAlert(app.ec2Instances[i], app.autoStopSchedules, ThresholdInForce(app.config.alerts), now) ==>
        AlertText(app.ec2Instances[i], now) in CheckAlerts(app, now).pendingAlerts
  {
    if !AlertCheckThrottled(app, now) {
      var b := AlertBook(app.pendingAlerts, app.dialog, app.dialogScrollOffset, app.effects);
      var threshold := ThresholdInForce(app.config.alerts);
      var sound := app.config.alerts.soundEnabled;
      if NoDuplicateAlerts(b.pending) {
        AlertEachNoDuplicates(b, app.ec2Instances, app.autoStopSchedules, threshold, sound, now);
      }
      AlertEachJustified(b, app.ec2Instances, app.autoStopSchedules, threshold, sound, now);
      AlertEachComplete(b, app.ec2Instances, app.autoStopSchedules, threshold, sound, now);
    }
  }

  /** How an alert check shows what it raised: the dialog shows the newest
      alert, scrolled to the top, and each new alert plays a sound when the
      configuration enables sound; with nothing new, both are left alone. */
  lemma CheckAlertsNotifies(app: App, now: int)
    ensures var r := CheckAlerts(app, now);
      && (|r.pendingAlerts| == |app.pendingAlerts| ==>
            r.dialog == app.dialog && r.dialogScrollOffset == app.dialogScrollOffset)
      && (|r.pendingAlerts| > |app.pendingAlerts| ==>
            r.dialog == Alert(r.pendingAlerts[|r.pendingAlerts| - 1]) && r.dialogScrollOffset == 0)
      && r.effects == app.effects +
           (if app.config.alerts.soundEnabled then Sounds(|r.pendingAlerts| - |app.pendingAlerts|) else [])
  {
    if AlertCheckThrottled(app, now) {
      assert app.effects + [] == app.effects;
    } else {
      var b := AlertBook(app.pendingAlerts, app.dialog, app.dialogScrollOffset, app.effects);
      var threshold := ThresholdInForce(app.config.alerts);
      var sound := app.config.alerts.soundEnabled;
      AlertEachShowsNewest(b, app.ec2Instances, app.autoStopSchedules, threshold, sound, now);
      AlertEachSounds(b, app.ec2Instances, app.autoStopSchedules, threshold, sound, now);
    }
  }

  /** Editing the user's alert settings has no effect on alerting. */
  lemma CheckAlertsIgnoresSettings(app: App, s: Settings, now: int)
    ensures CheckAlerts(app.(settings := s), now) == CheckAlerts(app, now).(settings := s)
  {
  }

  /** A second check within 30 seconds of one that ran changes nothing. */
  lemma AlertChecksThrottled(app: App, now: int, later: int)
    requires !AlertCheckThrottled(app, now)
    requires now <= later < now + ALERT_CHECK_INTERVAL_SECS
    ensures CheckAlerts(CheckAlerts(app, now), later) == CheckAlerts(app, now)
  {
  }

  // ---------------------------------------------------------------------------
  // The settings dialog: edits go to a draft, committed on save
  // ---------------------------------------------------------------------------

  /** Opens the dialog on a copy of the current settings, first field selected. */
  function OpenSettingsDialog(app: App, now: int): (r: App)
    ensures Steady(app, r) && r.settings == app.settings
    ensures r.settingsDraft == Some(app.settings) && r.settingsSelectedField == RefreshInterval
    ensures r.dialog == SettingsDialog && r.dialogScrollOffset == 0
    ensures r.log == LogInfo(app.log, SETTINGS_OPENED, now)
    ensures r == app.(settingsDraft := r.settingsDraft, settingsSelectedField := r.settingsSelectedField,
                      dialog := r.dialog, dialogScrollOffset := r.dialogScrollOffset, log := r.log)
  {
    app.(settingsDraft := Some(app.settings), settingsSelectedField := RefreshInterval,
         dialog := SettingsDialog, dialogScrollOffset := 0,
         log := LogInfo(app.log, SETTINGS_OPENED, now))
  }

  /** Writes a committed draft to the settings store and reports the outcome. */
  function ReportSave(app: App, world: World, now: int): (r: App)
    ensures r.toasts == app.toasts +
      [match world.saveSettings(app.settings)
       case Pass => Toast(SETTINGS_SAVED, SuccessToast, now)
       case Fail(e) => Toast(SETTINGS_SAVE_FAILED + e, ErrorToast, now)]
    ensures r == app.(toasts := r.toasts, log := r.log)
  {
    match world.saveSettings(app.settings)
    case Pass =>
      AddToast(app, SETTINGS_SAVED, SuccessToast, now).(log := LogSuccess(app.log, SETTINGS_SAVED, now))
    case Fail(e) =>
      AddToast(app, SETTINGS_SAVE_FAILED + e, ErrorToast, now)
        .(log := LogError(app.log, SETTINGS_SAVE_FAILED + e, now))
  }

  /** Commits the draft, if any: it becomes the settings, sets the auto-refresh
      period, and is written to the settings store, with a toast and log line
      reporting whether the write succeeded. The dialog closes either way. */
  function SaveSettings(app: App, world: World, now: int): (r: App)
    ensures Steady(app, r)
    ensures r.settingsDraft == None && r.dialog == NoDialog
    ensures app.settingsDraft.None? ==> r == app.(dialog := NoDialog)
    ensures app.settingsDraft.Some? ==>
      && r.settings == app.settingsDraft.value
      && r.autoRefreshInterval == r.settings.refreshIntervalSecs
      && r.toasts == app.toasts +
           [match world.saveSettings(r.settings)
            case Pass => Toast(SETTINGS_SAVED, SuccessToast, now)
            case Fail(e) => Toast(SETTINGS_SAVE_FAILED + e, ErrorToast, now)]
    ensures r == app.(settings := r.settings, autoRefreshInterval := r.autoRefreshInterval,
                      settingsDraft := None, dialog := NoDialog, toasts := r.toasts, log := r.log)
  {
    match app.settingsDraft
    case None => app.(dialog := NoDialog)
    case Some(draft) =>
      var a := app.(settingsDraft := None, settings := draft, autoRefreshInterval := draft.refreshIntervalSecs);
      ReportSave(a, world, now).(dialog := NoDialog)
  }

  /** Drops the draft and closes the dialog; the settings are untouched. */
  function CancelSettings(app: App, now: int): (r: App)
    ensures Steady(app, r) && r.settings == app.settings
    ensures r.settingsDraft == None && r.dialog == NoDialog
    ensures r.settings == app.settings && r.autoRefreshInterval == app.autoRefreshInterval
    ensures r.log == LogInfo(app.log, SETTINGS_CANCELLED, now)
    ensures r == app.(settingsDraft := None, dialog := NoDialog, log := r.log)
  {
    app.(settingsDraft := None, dialog := NoDialog, log := LogInfo(app.log, SETTINGS_CANCELLED, now))
  }

  /** One edit of one field of a settings value: the value lists are cycled,
      the flags toggled, and the test-sound row edits nothing. Every other
      field keeps its value. */
  function EditField(d: Settings, field: SettingsField, forward: bool): (r: Settings)
    ensures field == RefreshInterval ==> r == d.(refreshIntervalSecs := r.refreshIntervalSecs)
    ensures field == ShowLogsPanel ==> r == d.(showLogsPanel := !d.showLogsPanel)
    ensures field == LogLevelField ==> r == d.(logLevel := r.logLevel)
    ensures field == AlertThreshold ==> r == d.(alertThresholdSecs := r.alertThresholdSecs)
    ensures field == SoundEnabled ==> r == d.(soundEnabled := !d.soundEnabled)
    ensures field == TestSound ==> r == d
  {
    match field
    case RefreshInterval => CycleRefreshInterval(d, forward)
    case ShowLogsPanel => ToggleLogsPanel(d)
    case LogLevelField => CycleLogLevel(d, forward)
    case AlertThreshold => CycleAlertThreshold(d, forward)
    case SoundEnabled => ToggleSound(d)
    case TestSound => d
  }

  /** A settings value every field editor maps back and forth faithfully:
      the interval and threshold are listed values and the level is selectable. */
  predicate EditableSettings(d: Settings)
  {
    d.refreshIntervalSecs in REFRESH_INTERVALS && d.alertThresholdSecs in ALERT_THRESHOLDS && d.logLevel != Success
  }

  /** An edit in one direction is undone by an edit in the other. */
  lemma EditFieldUndone(d: Settings, field: SettingsField, forward: bool)
    requires EditableSettings(d)
    ensures EditField(EditField(d, field, forward), field, !forward) == d
  {
    match field
    case RefreshInterval => RefreshIntervalRoundTrip(d, forward);
    case LogLevelField => CycleLogLevelIsRotation(d, forward);
    case AlertThreshold => AlertThresholdRoundTrip(d, forward);
    case _ =>
  }

  /** Applies `delta` to the selected field of the draft (a positive delta
      steps forward). Only the draft changes; with no draft nothing does. */
  function ModifyCurrentSetting(app: App, delta: int): (r: App)
    ensures Steady(app, r) && r.settings == app.settings
    ensures app.settingsDraft.None? ==> r == app
    ensures app.settingsDraft.Some? ==>
      r.settingsDraft == Some(EditField(app.settingsDraft.value, app.settingsSelectedField, delta > 0))
    ensures r == app.(settingsDraft := r.settingsDraft)
  {
    match app.settingsDraft
    case None => app
    case Some(d) => app.(settingsDraft := Some(EditField(d, app.settingsSelectedField, delta > 0)))
  }

  /** Pressing the opposite arrow undoes an edit of an editable draft. */
  lemma ModifySettingUndone(app: App, delta: int)
    requires delta != 0
    requires app.settingsDraft.Some? && EditableSettings(app.settingsDraft.value)
    ensures ModifyCurrentSetting(ModifyCurrentSetting(app, delta), -delta) == app
  {
    EditFieldUndone(app.settingsDraft.value, app.settingsSelectedField, delta > 0);
  }

  /** Moves the selected row up (previous) or down (next), wrapping around. */
  function NavigateSettingsField(app: App, up: bool): (r: App)
    ensures FieldIndex(r.settingsSelectedField) ==
      if up then (FieldIndex(app.settingsSelectedField) + 5) % 6 else (FieldIndex(app.settingsSelectedField) + 1) % 6
    ensures r == app.(settingsSelectedField := r.settingsSelectedField)
  {
    app.(settingsSelectedField := if up then PrevField(app.settingsSelectedField) else NextField(app.settingsSelectedField))
  }

  /** Moving up then down (or down then up) returns to the same row. */
  lemma NavigateSettingsFieldUndone(app: App, up: bool)
    ensures NavigateSettingsField(NavigateSettingsField(app, up), !up) == app
  {
    NextPrevInverse(app.settingsSelectedField);
  }

  /** Plays the alert sound whatever the sound setting says, with a toast and a log line. */
  function TriggerTestAlert(app: App, now: int): (r: App)
    ensures Steady(app, r) && r.settings == app.settings
    ensures r.effects == app.effects + [PlayAlertSound]
    ensures r.toasts == app.toasts + [Toast(TEST_ALERT_TOAST, InfoToast, now)]
    ensures r.log == LogInfo(app.log, TEST_ALERT_LOG, now)
    ensures r == app.(effects := r.effects, toasts := r.toasts, log := r.log)
  {
    var a := app.(effects := app.effects + [PlayAlertSound]);
    var a := AddToast(a, TEST_ALERT_TOAST, InfoToast, now);
    a.(log := LogInfo(a.log, TEST_ALERT_LOG, now))
  }

  // ---------------------------------------------------------------------------
  // Single sign-on and profile switching
  // ---------------------------------------------------------------------------

  /** The profile the selector highlights, if the list is not empty. */
  function HighlightedProfile(app: App): (r: Option<string>)
    requires ProfileIndexValid(app)
    ensures r.None? <==> |app.availableProfiles| == 0
    ensures r.Some? ==> r.value in app.availableProfiles
  {
    if |app.availableProfiles| == 0 then None else Some(app.availableProfiles[app.selectedProfileIndex])
  }

  /** Starts `aws sso login` in the background for the highlighted profile
      (or with no profile argument when there is none). */
  function LoginWithSso(app: App, now: int): (r: App)
    ensures Steady(app, r) && r.settings == app.settings
    requires ProfileIndexValid(app)
    ensures r.effects == app.effects + [SpawnSsoLogin(HighlightedProfile(app))]
    ensures r.statusMessage == SSO_LOGIN_STATUS
    ensures r.toasts == app.toasts + [Toast(SSO_LOGIN_TOAST, InfoToast, now)]
    ensures r.log == LogInfo(app.log, SSO_LOGIN_LOG, now)
    ensures r == app.(statusMessage := r.statusMessage, toasts := r.toasts, effects := r.effects, log := r.log)
  {
    var a := app.(statusMessage := SSO_LOGIN_STATUS);
    var a := AddToast(a, SSO_LOGIN_TOAST, InfoToast, now);
    var a := a.(effects := a.effects + [SpawnSsoLogin(HighlightedProfile(app))]);
    a.(log := LogInfo(a.log, SSO_LOGIN_LOG, now))
  }

  /** How the login command ended: it ran (with its exit status and output)
      or could not be started. */
  datatype CommandResult = Ran(success: bool, stdout: string, stderr: string) | CouldNotRun(reason: string)

  /** The notification the login thread posts: success names the profile
      (DEFAULT_PROFILE when none was given); a failed run reports standard error,
      or standard output when standard error is blank. */
  function SsoLoginResult(profile: Option<string>, result: CommandResult): (n: Notification)
    ensures n.SsoLoginSuccess? <==> result.Ran? && result.success
    ensures n.SsoLoginSuccess? ==> n.profile == (if profile.Some? then profile.value else DEFAULT_PROFILE)
    ensures result.Ran? && !result.success ==>
      n == SsoLoginFailed(if Trim(result.stderr) == "" then result.stdout else result.stderr)
    ensures result.CouldNotRun? ==> n == SsoLoginFailed(result.reason)
  {
    match result
    case Ran(success, stdout, stderr) =>
      if success then SsoLoginSuccess(LOGIN_SUCCESSFUL, if profile.Some? then profile.value else DEFAULT_PROFILE)
      else SsoLoginFailed(if Trim(stderr) == "" then stdout else stderr)
    case CouldNotRun(reason) => SsoLoginFailed(reason)
  }

  /** The notification the client-rebuild task posts: the new client reads
      the profile from the environment and keeps the configured region. */
  function ClientRebuildResult(profileEnv: Option<string>, profile: string, region: Option<string>, built: Outcome): (n: Notification)
    ensures built.Pass? ==> n == ProfileActivated(Client(profileEnv, region), profile)
    ensures built.Fail? ==> n == ProfileActivationFailed(built.error)
  {
    match built
    case Pass => ProfileActivated(Client(profileEnv, region), profile)
    case Fail(e) => ProfileActivationFailed(e)
  }

  /** Points the environment at `name` and rebuilds the client in the background. */
  function ActivateProfile(app: App, name: string, now: int): (r: App)
    ensures Steady(app, r) && r.settings == app.settings
    ensures r.isLoading && r.profileEnv == Some(name)
    ensures r.effects == app.effects + [SpawnClientRebuild(name, app.config.awsRegion)]
    ensures r.statusMessage == SWITCHING_STATUS + name + "..."
    ensures r.toasts == app.toasts + [Toast(SWITCHING_TOAST + name + SWITCHING_TOAST_SUFFIX, InfoToast, now)]
    ensures r.log == LogInfo(app.log, SET_PROFILE_LOG + name + REINIT_CLIENT_SUFFIX, now)
    ensures r == app.(statusMessage := r.statusMessage, toasts := r.toasts, isLoading := true,
                      profileEnv := Some(name), log := r.log, effects := r.effects)
  {
    var a := app.(statusMessage := SWITCHING_STATUS + name + "...");
    var a := AddToast(a, SWITCHING_TOAST + name + SWITCHING_TOAST_SUFFIX, InfoToast, now);
    var a := a.(isLoading := true, profileEnv := Some(name));
    var a := a.(log := LogInfo(a.log, SET_PROFILE_LOG + name + REINIT_CLIENT_SUFFIX, now));
    a.(effects := a.effects + [SpawnClientRebuild(name, app.config.awsRegion)])
  }

  /** Marker in the login error that means single sign-on is not configured. */
  const SSO_CONFIG_MISSING: string := "Missing the following required SSO configuration"

  /** A login succeeded: announce it and switch to the profile it names. */
  function OnLoginSucceeded(app: App, msg: string, profile: string, now: int): (r: App)
    ensures r.toasts == app.toasts + [Toast(LOGIN_SUCCESS_TOAST, SuccessToast, now),
                                      Toast(SWITCHING_TOAST + profile + SWITCHING_TOAST_SUFFIX, InfoToast, now)]
    ensures r.isLoading && r.profileEnv == Some(profile)
    ensures r.effects == app.effects + [SpawnClientRebuild(profile, app.config.awsRegion)]
    ensures r == app.(statusMessage := r.statusMessage, toasts := r.toasts, isLoading := true,
                      profileEnv := Some(profile), log := r.log, effects := r.effects)
  {
    var a := AddToast(app, LOGIN_SUCCESS_TOAST, SuccessToast, now);
    var a := a.(log := LogSuccess(a.log, msg + ": " + profile, now));
    ActivateProfile(a, profile, now)
  }

  /** A login failed: one error toast; a missing single sign-on configuration
      is also reported in the status line. */
  function OnLoginFailed(app: App, err: string, now: int): (r: App)
    ensures |r.toasts| == |app.toasts| + 1 && r.toasts[..|app.toasts|] == app.toasts
    ensures r.toasts[|app.toasts|].toastType == ErrorToast
    ensures r.statusMessage == (if Contains(err, SSO_CONFIG_MISSING) then SSO_CONFIG_MISSING_STATUS else app.statusMessage)
    ensures r == app.(statusMessage := r.statusMessage, toasts := r.toasts, log := r.log)
  {
    if Contains(err, SSO_CONFIG_MISSING) then
      var a := AddToast(app, SSO_CONFIG_MISSING_TOAST, ErrorToast, now);
      a.(log := LogError(a.log, SSO_CONFIG_ERROR_LOG + err, now), statusMessage := SSO_CONFIG_MISSING_STATUS)
    else
      var a := AddToast(app, LOGIN_FAILED_TOAST + err, ErrorToast, now);
      a.(log := LogError(a.log, LOGIN_FAILED_LOG + err, now))
  }

  /** A rebuilt client arrived: adopt it, mark the profile active, close any
      dialog and refresh with the new client. */
  function OnProfileActivated(app: App, world: World, client: Client, profile: string, now: int): (r: App)
    ensures r.client == client && r.awsConfigured && r.activeProfileName == Some(profile) && !r.isLoading
    ensures Steady(app, r) && r.profileEnv == app.profileEnv && r.effects == app.effects
    ensures r.settings == app.settings && r.settingsDraft == app.settingsDraft
  {
    var a := app.(client := client, awsConfigured := true, activeProfileName := Some(profile),
                  isLoading := false, dialog := NoDialog);
    var a := AddToast(a, ACTIVE_PROFILE_TOAST + profile, SuccessToast, now);
    RefreshData(a, world, now)
  }

  /** Activation announces the profile and refreshes at once with the new
      client: the refresh is stamped with the current time, and the
      session-expired dialog opens exactly when that refresh fails with an
      expired session. */
  lemma ProfileActivationRefreshes(app: App, world: World, client: Client, profile: string, now: int)
    ensures var r := OnProfileActivated(app, world, client, profile, now);
      && r.lastRefresh == Some(now)
      && r.toasts == app.toasts + [Toast(ACTIVE_PROFILE_TOAST + profile, SuccessToast, now)]
      && var e := RefreshError(app.(client := client), world);
         r.dialog == if e.Some? && IsSessionExpiredError(e.value) then SessionExpired else NoDialog
  {
    var a := app.(client := client, awsConfigured := true, activeProfileName := Some(profile),
                  isLoading := false, dialog := NoDialog);
    RefreshDataDetectsExpiry(AddToast(a, ACTIVE_PROFILE_TOAST + profile, SuccessToast, now), world, now);
  }

  /** Rebuilding the client failed: clear the loading flag and report it. */
  function OnActivationFailed(app: App, err: string, now: int): (r: App)
    ensures r.toasts == app.toasts + [Toast(SWITCH_FAILED_TOAST, ErrorToast, now)]
    ensures r.log == LogError(app.log, SWITCH_FAILED_LOG + err, now)
    ensures r == app.(isLoading := false, toasts := r.toasts, log := r.log)
  {
    var a := app.(isLoading := false, log := LogError(app.log, SWITCH_FAILED_LOG + err, now));
    AddToast(a, SWITCH_FAILED_TOAST, ErrorToast, now)
  }

  /** Handles one notification from background work. The screen, the
      configuration, the profile list and the settings are never touched. */
  function ApplyNotification(app: App, world: World, n: Notification, now: int): (r: App)
    ensures Steady(app, r)
    ensures r.settings == app.settings && r.settingsDraft == app.settingsDraft
  {
    match n
    case SsoLoginSuccess(msg, profile) => OnLoginSucceeded(app, msg, profile, now)
    case SsoLoginFailed(err) => OnLoginFailed(app, err, now)
    case ProfileActivated(client, profile) => OnProfileActivated(app, world, client, profile, now)
    case ProfileActivationFailed(err) => OnActivationFailed(app, err, now)
  }

  /** Drains the notification channel: every notification is handled, in order. */
  function CheckAsyncNotifications(app: App, world: World, ns: seq<Notification>, now: int): (r: App)
    ensures Steady(app, r)
    ensures r.settings == app.settings && r.settingsDraft == app.settingsDraft
    decreases |ns|
  {
    if |ns| == 0 then app
    else CheckAsyncNotifications(ApplyNotification(app, world, ns[0], now), world, ns[1..], now)
  }

  /** Draining in two batches is the same as draining them together. */
  lemma {:induction false} CheckAsyncNotificationsAppend(app: App, world: World, ns1: seq<Notification>, ns2: seq<Notification>, now: int)
    ensures CheckAsyncNotifications(app, world, ns1 + ns2, now) ==
            CheckAsyncNotifications(CheckAsyncNotifications(app, world, ns1, now), world, ns2, now)
    decreases |ns1|
  {
    if |ns1| == 0 {
      assert ns1 + ns2 == ns2;
    } else {
      assert (ns1 + ns2)[1..] == ns1[1..] + ns2;
      CheckAsyncNotificationsAppend(ApplyNotification(app, world, ns1[0], now), world, ns1[1..], ns2, now);
    }
  }

  /** A successful login followed by the rebuilt client it triggers leaves
      that profile active: the environment and the client name it, the
      loading flag is cleared, and the application counts as configured. */
  lemma LoginThenActivationActivatesProfile(app: App, world: World, msg: string, profile: string, now: int, later: int)
    ensures var a := ApplyNotification(app, world, SsoLoginSuccess(msg, profile), now);
      var n := ClientRebuildResult(a.profileEnv, profile, a.config.awsRegion, Pass);
      var r := ApplyNotification(a, world, n, later);
      && r.activeProfileName == Some(profile) && r.profileEnv == Some(profile)
      && r.client == Client(Some(profile), app.config.awsRegion)
      && r.awsConfigured && !r.isLoading
  {
  }
}
