/** The application's life cycle: building the initial state from what the
    process finds at start-up, and the main loop, one tick at a time. */
module AppLoop {
  import opened Common
  import opened Config
  import opened Logger
  import opened UserSettings
  import opened Aws
  import opened AppState
  import opened Actions
  import Event
  import Handlers

  // ---------------------------------------------------------------------------
  // Start-up
  // ---------------------------------------------------------------------------

  /** What the process finds when it starts: the stored settings, the AWS
      config file (None when it cannot be read), the AWS_PROFILE variable,
      whether building the cloud client succeeds, and the places credentials
      may come from. */
  datatype StartupEnv = StartupEnv(
    settingsLoad: Result<Settings>,
    configFile: Option<string>,
    profileEnv: Option<string>,
    clientBuild: Outcome,
    accessKeyIdSet: bool,
    secretAccessKeySet: bool,
    credentialsFileExists: bool,
    configFileExists: bool)

  const APP_STARTED: string := "Application started"
  const SETTINGS_LOADED: string := "Settings loaded successfully"
  const SETTINGS_LOAD_FAILED: string := "Failed to load settings, using defaults: "
  const USING_DEFAULT_PROFILE: string := "Using default profile: "
  const DEFAULT_PROFILE_MISSING: string := "Default profile '"
  const DEFAULT_PROFILE_MISSING_SUFFIX: string := "' not found in available profiles"
  const NOT_CONFIGURED: string := "AWS credentials not configured"
  const CREDENTIALS_DETECTED: string := "AWS credentials detected"
  const READY: string := "Ready"

  /** The window size assumed until the terminal reports one. */
  const INITIAL_WIDTH: nat := 80
  const INITIAL_HEIGHT: nat := 24

  /** Credentials count as configured when both key variables are set, or
      the shared credentials file exists, or the shared config file exists. */
  predicate CredentialsDetected(env: StartupEnv)
  {
    (env.accessKeyIdSet && env.secretAccessKeySet) || env.credentialsFileExists || env.configFileExists
  }

  /** The stored settings, or the defaults when they cannot be loaded. */
  function StartupSettings(env: StartupEnv): (s: Settings)
    ensures env.settingsLoad.Ok? ==> s == env.settingsLoad.value
    ensures env.settingsLoad.Err? ==> s == DefaultSettings()
  {
    match env.settingsLoad
    case Ok(s) => s
    case Err(_) => DefaultSettings()
  }

  /** AWS_PROFILE once the configured default profile has been applied: it
      replaces the inherited value only when it names an available profile. */
  function StartupProfileEnv(env: StartupEnv, profiles: seq<string>): (p: Option<string>)
  {
    var d := StartupSettings(env).defaultProfile;
    if d.Some? && d.value in profiles then d else env.profileEnv
  }

  /** The entry recording the outcome of loading settings. */
  function SettingsLoadEntry(env: StartupEnv, now: int): LogEntry
  {
    match env.settingsLoad
    case Ok(_) => LogEntry(now, Info, SETTINGS_LOADED)
    case Err(e) => LogEntry(now, Warning, SETTINGS_LOAD_FAILED + e)
  }

  /** The note on the configured default profile: none when there is none,
      otherwise whether it was applied. */
  function DefaultProfileEntries(d: Option<string>, profiles: seq<string>, now: int): seq<LogEntry>
  {
    match d
    case None => []
    case Some(p) =>
      if p in profiles then [LogEntry(now, Info, USING_DEFAULT_PROFILE + p)]
      else [LogEntry(now, Warning, DEFAULT_PROFILE_MISSING + p + DEFAULT_PROFILE_MISSING_SUFFIX)]
  }

  /** The entry recording whether credentials were found. */
  function CredentialsEntry(env: StartupEnv, now: int): LogEntry
  {
    if CredentialsDetected(env) then LogEntry(now, Info, CREDENTIALS_DETECTED)
    else LogEntry(now, Warning, NOT_CONFIGURED)
  }

  /** What start-up logs, in order. */
  function StartupEntries(env: StartupEnv, profiles: seq<string>, now: int): seq<LogEntry>
  {
    [LogEntry(now, Info, APP_STARTED), SettingsLoadEntry(env, now)]
      + DefaultProfileEntries(StartupSettings(env).defaultProfile, profiles, now)
      + [CredentialsEntry(env, now)]
  }

  /** The start-up log: each entry logged in turn into an empty log. */
  function StartupLog(env: StartupEnv, profiles: seq<string>, now: int): LogManager
  {
    LogAll(NewLogManager(), StartupEntries(env, profiles, now))
  }

  /** Start-up logs three or four entries, far below the cap, so the log
      holds all of them: the start entry, the outcome of loading settings,
      possibly a note on the default profile, and the credentials verdict last. */
  lemma StartupLogShape(env: StartupEnv, profiles: seq<string>, now: int)
    ensures var es := StartupLog(env, profiles, now).entries;
      && 3 <= |es| <= 4
      && es[0] == LogEntry(now, Info, APP_STARTED)
      && es[1] == SettingsLoadEntry(env, now)
      && es[|es| - 1] == CredentialsEntry(env, now)
  {
    var es := StartupEntries(env, profiles, now);
    assert |DefaultProfileEntries(StartupSettings(env).defaultProfile, profiles, now)| <= 1;
    assert 3 <= |es| <= 4;
    LogKeepsMostRecent(NewLogManager(), es);
    assert NewLogManager().entries + es == es;
    assert LastN(es, MAX_LOG_ENTRIES) == es;
  }

  /** The initial state, or the client's construction error. The profile
      list comes from the config file; the highlighted profile is the one
      AWS_PROFILE names (the first match), else the first. */
  function New(env: StartupEnv, now: int): (r: Result<App>)
    ensures r.Ok? <==> env.clientBuild.Pass?
    ensures r.Ok? ==> ProfileIndexValid(r.value)
    ensures r.Ok? ==> r.value.settingsDraft == None
  {
    var settings := StartupSettings(env);
    var profiles := ListAwsProfiles(env.configFile);
    var profileEnv := StartupProfileEnv(env, profiles);
    var configured := CredentialsDetected(env);
    match env.clientBuild
    case Fail(e) => Err(e)
    case Pass =>
      var config := DefaultAppConfig();
      Ok(App(
        config := config,
        client := Client(profileEnv, config.awsRegion),
        shouldQuit := false,
        currentScreen := DefaultScreen(),
        awsConfigured := configured,
        statusMessage := if configured then READY else NOT_CONFIGURED,
        isLoading := false,
        scrollOffset := 0,
        ec2Instances := [],
        ec2Selected := 0,
        ec2TableSelection := None,
        autoStopSchedules := [],
        lambdaFunctions := [],
        lambdaSelected := 0,
        dialog := if configured then NoDialog else Setup,
        pendingAlerts := [],
        lastAlertCheck := None,
        lastRefresh := None,
        autoRefreshInterval := settings.refreshIntervalSecs,
        boostRefreshUntilStable := false,
        toasts := [],
        windowWidth := INITIAL_WIDTH,
        windowHeight := INITIAL_HEIGHT,
        dialogScrollOffset := 0,
        settings := settings,
        settingsSelectedField := RefreshInterval,
        settingsDraft := None,
        log := StartupLog(env, profiles, now),
        availableProfiles := profiles,
        selectedProfileIndex := if profileEnv.Some? then PositionOr(profiles, profileEnv.value, 0) else 0,
        activeProfileName := if profileEnv.Some? then profileEnv else Some(DEFAULT_PROFILE),
        profileEnv := profileEnv,
        effects := []))
  }

  /** The setup dialog greets exactly the users without credentials, and the
      status line says the same thing. */
  lemma NewOpensSetupWithoutCredentials(env: StartupEnv, now: int)
    requires env.clientBuild.Pass?
    ensures var a := New(env, now).value;
      && (a.dialog == Setup <==> !CredentialsDetected(env))
      && (a.dialog == NoDialog <==> CredentialsDetected(env))
      && a.awsConfigured == CredentialsDetected(env)
      && a.statusMessage == (if CredentialsDetected(env) then READY else NOT_CONFIGURED)
  {
  }

  /** The application starts on the home screen, idle, with nothing listed,
      nothing scheduled and the assumed 80x24 window; the refresh period is
      the one the settings in force name. */
  lemma NewStartsIdle(env: StartupEnv, now: int)
    requires env.clientBuild.Pass?
    ensures var a := New(env, now).value;
      && a.currentScreen == Home && !a.shouldQuit && !a.isLoading
      && a.ec2Instances == [] && a.lambdaFunctions == [] && a.autoStopSchedules == []
      && a.pendingAlerts == [] && a.toasts == [] && a.effects == []
      && a.lastRefresh == None && a.lastAlertCheck == None
      && a.windowWidth == 80 && a.windowHeight == 24
      && a.config == DefaultAppConfig()
      && a.autoRefreshInterval == a.settings.refreshIntervalSecs
  {
  }

  /** Stored settings are used as they are, and the second log entry says so. */
  lemma NewUsesStoredSettings(env: StartupEnv, now: int)
    requires env.clientBuild.Pass? && env.settingsLoad.Ok?
    ensures var a := New(env, now).value;
      && a.settings == env.settingsLoad.value
      && |a.log.entries| >= 3
      && a.log.entries[0] == LogEntry(now, Info, APP_STARTED)
      && a.log.entries[1] == LogEntry(now, Info, SETTINGS_LOADED)
  {
    StartupLogShape(env, New(env, now).value.availableProfiles, now);
  }

  /** Settings that cannot be loaded fall back to the defaults, and the
      second log entry is a warning that says why. */
  lemma NewFallsBackToDefaultSettings(env: StartupEnv, now: int)
    requires env.clientBuild.Pass? && env.settingsLoad.Err?
    ensures var a := New(env, now).value;
      && a.settings == DefaultSettings()
      && |a.log.entries| >= 3
      && a.log.entries[0] == LogEntry(now, Info, APP_STARTED)
      && a.log.entries[1] == LogEntry(now, Warning, SETTINGS_LOAD_FAILED + env.settingsLoad.error)
  {
    StartupLogShape(env, New(env, now).value.availableProfiles, now);
  }

  /** A configured default profile becomes AWS_PROFILE (and so the client's
      profile) only when it is one of the available profiles. */
  lemma NewAppliesAvailableDefaultProfile(env: StartupEnv, now: int)
    requires env.clientBuild.Pass?
    ensures var a := New(env, now).value;
      var d := a.settings.defaultProfile;
      && (d.Some? && d.value in a.availableProfiles ==> a.profileEnv == d)
      && (d.None? || d.value !in a.availableProfiles ==> a.profileEnv == env.profileEnv)
      && a.client == Client(a.profileEnv, a.config.awsRegion)
      && a.availableProfiles == ListAwsProfiles(env.configFile)
  {
  }

  /** The profile picker starts on the first entry naming AWS_PROFILE, or on
      the first entry when there is none; the active profile is AWS_PROFILE,
      or "default" when it is unset. */
  lemma NewHighlightsEnvironmentProfile(env: StartupEnv, now: int)
    requires env.clientBuild.Pass?
    ensures var a := New(env, now).value;
      && (a.profileEnv.Some? && a.profileEnv.value in a.availableProfiles ==>
            && a.availableProfiles[a.selectedProfileIndex] == a.profileEnv.value
            && forall j :: 0 <= j < a.selectedProfileIndex ==> a.availableProfiles[j] != a.profileEnv.value)
      && (a.profileEnv.None? || a.profileEnv.value !in a.availableProfiles ==> a.selectedProfileIndex == 0)
      && a.activeProfileName == (if a.profileEnv.Some? then a.profileEnv else Some("default"))
  {
  }

  /** The start-up log ends with the credentials verdict: a warning when
      none were found, an informational entry otherwise. */
  lemma NewLogsCredentialVerdict(env: StartupEnv, now: int)
    requires env.clientBuild.Pass?
    ensures var es := New(env, now).value.log.entries;
      && |es| > 0
      && (CredentialsDetected(env) ==> es[|es| - 1] == LogEntry(now, Info, CREDENTIALS_DETECTED))
      && (!CredentialsDetected(env) ==> es[|es| - 1] == LogEntry(now, Warning, NOT_CONFIGURED))
  {
    StartupLogShape(env, New(env, now).value.availableProfiles, now);
  }

  // ---------------------------------------------------------------------------
  // The main loop
  // ---------------------------------------------------------------------------

  /** Points the EC2 table at the selected instance, or at nothing when the
      list is empty; only on the EC2 screen. */
  function SyncTableState(app: App): (r: App)
    ensures r == app.(ec2TableSelection := r.ec2TableSelection)
    ensures app.currentScreen != Ec2 ==> r == app
    ensures app.currentScreen == Ec2 ==>
      (r.ec2TableSelection.None? <==> |app.ec2Instances| == 0) &&
      (r.ec2TableSelection.Some? ==> r.ec2TableSelection.value == app.ec2Selected)
  {
    if app.currentScreen != Ec2 then app
    else if |app.ec2Instances| == 0 then app.(ec2TableSelection := None)
    else app.(ec2TableSelection := Some(app.ec2Selected))
  }

  /** Syncing twice is syncing once. */
  lemma SyncTableStateIdempotent(app: App)
    ensures SyncTableState(SyncTableState(app)) == SyncTableState(app)
  {
  }

  /** What one pass of the loop receives: at most one terminal event, the
      notifications queued since the last pass, the clock, and the cloud as
      it stands during this pass (instances change state between passes). */
  datatype TickInput = TickInput(input: Option<Event.TermEvent>, notifications: seq<Notification>, now: int,
                                 world: World)

  /** The state after the event of this pass, if any, was handled. */
  function HandleInput(app: App, t: TickInput): (r: App)
    requires ProfileIndexValid(app)
    ensures ProfileIndexValid(r)
    ensures r.config == app.config && r.availableProfiles == app.availableProfiles
    ensures r.shouldQuit <==> app.shouldQuit || (app.dialog == NoDialog && Event.PollEvent(t.input) == Some(Event.Quit))
  {
    match Event.PollEvent(t.input)
    case None => app
    case Some(ev) => Handlers.HandleEvent(app, t.world, ev, t.now)
  }

  /** One pass of the loop, in the order of `App::run`: the event, the table
      sync, the notifications, the alert check, the auto-refresh check. */
  function Tick(app: App, t: TickInput): (r: App)
    requires ProfileIndexValid(app)
    ensures ProfileIndexValid(r)
    ensures r.config == app.config && r.availableProfiles == app.availableProfiles
  {
    var a := HandleInput(app, t);
    var a := SyncTableState(a);
    var a := CheckAsyncNotifications(a, t.world, t.notifications, t.now);
    var a := CheckAlerts(a, t.now);
    CheckAutoRefresh(a, t.world, t.now)
  }

  /** Only a Quit outside a dialog stops the loop, and nothing restarts it:
      the steps after the event never touch the quit flag. */
  lemma TickQuitsOnlyOnQuit(app: App, t: TickInput)
    requires ProfileIndexValid(app)
    ensures Tick(app, t).shouldQuit <==>
      app.shouldQuit || (app.dialog == NoDialog && Event.PollEvent(t.input) == Some(Event.Quit))
  {
    var a := HandleInput(app, t);
    var b := CheckAsyncNotifications(SyncTableState(a), t.world, t.notifications, t.now);
    assert b.shouldQuit == a.shouldQuit;
  }

  /** Without input, notifications, a due alert check or a due refresh, a
      pass changes nothing but the table selection. */
  lemma QuietTickOnlySyncs(app: App, t: TickInput)
    requires ProfileIndexValid(app)
    requires t.input.None? && t.notifications == []
    requires AlertCheckThrottled(app, t.now) && AutoRefreshPaused(app)
    ensures Tick(app, t) == SyncTableState(app)
  {
    var s := SyncTableState(app);
    assert AlertCheckThrottled(s, t.now) && AutoRefreshPaused(s);
  }

  /** Over a whole pass the settings change only when the pass's key is
      Enter in the settings dialog, and they then become its draft; and a
      draft comes into being only when the pass's key opens the settings
      dialog, holding the settings as they were. The table sync, the
      notifications, the alert check and the auto-refresh touch neither. */
  lemma TickSettingsOnlyByCommit(app: App, t: TickInput)
    requires ProfileIndexValid(app)
    ensures var r := Tick(app, t);
      var ev := Event.PollEvent(t.input);
      && (r.settings != app.settings ==>
            && app.dialog == SettingsDialog && ev == Some(Event.Enter)
            && app.settingsDraft.Some? && r.settings == app.settingsDraft.value)
      && (r.settingsDraft.Some? && app.settingsDraft.None? ==>
            && app.dialog == NoDialog && ev == Some(Event.OpenSettings)
            && r.settingsDraft == Some(app.settings))
  {
    var a := HandleInput(app, t);
    if ev: Event.AppEvent :| Event.PollEvent(t.input) == Some(ev) {
      Handlers.DraftAppearsWithSettingsDialog(app, t.world, ev, t.now);
    }
    var b := CheckAsyncNotifications(SyncTableState(a), t.world, t.notifications, t.now);
    assert b.settings == a.settings && b.settingsDraft == a.settingsDraft;
  }

  /** The alert check and the auto-refresh keep the draft and never open the
      settings dialog. */
  lemma AlertsAndRefreshOpenNoSettings(app: App, world: World, now: int)
    ensures var r := CheckAutoRefresh(CheckAlerts(app, now), world, now);
      r.settingsDraft == app.settingsDraft && (r.dialog == SettingsDialog ==> app.dialog == SettingsDialog)
  {
    var c := CheckAlerts(app, now);
    CheckAlertsNotifies(app, now);
    if !AutoRefreshPaused(c) {
      var boost := CheckAutoRefresh(c, world, now).boostRefreshUntilStable;
      RefreshDataDetectsExpiry(CleanupOldToasts(c, now).(boostRefreshUntilStable := boost), world, now);
    }
  }

  /** A batch holding only an activated profile keeps the draft and leaves
      no settings dialog open. */
  lemma ActivationClosesDialog(app: App, world: World, client: Client, profile: string, now: int)
    ensures var r := CheckAsyncNotifications(app, world, [ProfileActivated(client, profile)], now);
      r.settingsDraft == app.settingsDraft && r.dialog != SettingsDialog
  {
    assert [ProfileActivated(client, profile)][1..] == [];
    ProfileActivationRefreshes(app, world, client, profile, now);
  }

  /** A settings dialog opened by a pass's key can be gone by the end of the
      same pass while its draft stays: an activated profile closes every
      dialog, and neither the alert check nor the auto-refresh reopens it. */
  lemma TickCanCloseFreshSettings(app: App, t: TickInput, client: Client, profile: string)
    requires ProfileIndexValid(app) && app.dialog == NoDialog
    requires Event.PollEvent(t.input) == Some(Event.OpenSettings)
    requires t.notifications == [ProfileActivated(client, profile)]
    ensures Tick(app, t).settingsDraft == Some(app.settings)
    ensures Tick(app, t).dialog != SettingsDialog
  {
    var a := SyncTableState(HandleInput(app, t));
    assert a.settingsDraft == Some(app.settings);
    ActivationClosesDialog(a, t.world, client, profile, t.now);
    AlertsAndRefreshOpenNoSettings(CheckAsyncNotifications(a, t.world, t.notifications, t.now), t.world, t.now);
  }

  /** One pass as a value, usable from any state the pass accepts. */
  function TickStep(): (step: (App, TickInput) --> App)
    ensures forall a, t | ProfileIndexValid(a) :: step.requires(a, t) && ProfileIndexValid(step(a, t))
  {
    (a, t) requires ProfileIndexValid(a) => Tick(a, t)
  }

  /** A loop over any step that keeps `inv`: passes run in order until one
      leaves the quit flag set, and inputs after that pass are never read. */
  function Loop(step: (App, TickInput) --> App, inv: App -> bool, app: App, ticks: seq<TickInput>): (r: App)
    requires inv(app)
    requires forall a, t | inv(a) :: step.requires(a, t) && inv(step(a, t))
    ensures inv(r)
    decreases |ticks|
  {
    if |ticks| == 0 then app
    else
      var a := step(app, ticks[0]);
      if a.shouldQuit then a else Loop(step, inv, a, ticks[1..])
  }

  /** Once the loop has stopped, later input makes no difference. */
  lemma {:induction false} LoopIgnoresInputAfterQuit(step: (App, TickInput) --> App, inv: App -> bool, app: App,
                                                     ticks: seq<TickInput>, later: seq<TickInput>)
    requires inv(app)
    requires forall a, t | inv(a) :: step.requires(a, t) && inv(step(a, t))
    requires |ticks| > 0 && Loop(step, inv, app, ticks).shouldQuit
    ensures Loop(step, inv, app, ticks + later) == Loop(step, inv, app, ticks)
    decreases |ticks|
  {
    var a := step(app, ticks[0]);
    assert (ticks + later)[0] == ticks[0];
    if !a.shouldQuit {
      assert (ticks + later)[1..] == ticks[1..] + later;
      LoopIgnoresInputAfterQuit(step, inv, a, ticks[1..], later);
    }
  }

  /** A loop that ends with the quit flag set ended on some pass `k`, taken
      from a state the loop reached, which had the flag set only if the
      starting state did. */
  lemma {:induction false} LoopEndsOnAPass(step: (App, TickInput) --> App, inv: App -> bool, app: App,
                                           ticks: seq<TickInput>)
    requires inv(app)
    requires forall a, t | inv(a) :: step.requires(a, t) && inv(step(a, t))
    requires Loop(step, inv, app, ticks).shouldQuit && !app.shouldQuit
    ensures exists k, a :: 0 <= k < |ticks| && inv(a) && !a.shouldQuit && Loop(step, inv, app, ticks) == step(a, ticks[k])
    decreases |ticks|
  {
    var a := step(app, ticks[0]);
    if a.shouldQuit {
      assert Loop(step, inv, app, ticks) == step(app, ticks[0]);
    } else {
      LoopEndsOnAPass(step, inv, a, ticks[1..]);
      var k, b :| 0 <= k < |ticks[1..]| && inv(b) && !b.shouldQuit && Loop(step, inv, a, ticks[1..]) == step(b, ticks[1..][k]);
      assert ticks[1..][k] == ticks[k + 1];
    }
  }

  /** The main loop: one pass per input until the quit flag is set. Each
      pass sees the cloud of its own input. */
  function Run(app: App, ticks: seq<TickInput>): (r: App)
    requires ProfileIndexValid(app)
    ensures ProfileIndexValid(r)
  {
    Loop(TickStep(), ProfileIndexValid, app, ticks)
  }

  /** Once the application has quit, later input is ignored. */
  lemma RunIgnoresInputAfterQuit(app: App, ticks: seq<TickInput>, later: seq<TickInput>)
    requires ProfileIndexValid(app)
    requires |ticks| > 0 && Run(app, ticks).shouldQuit
    ensures Run(app, ticks + later) == Run(app, ticks)
  {
    LoopIgnoresInputAfterQuit(TickStep(), ProfileIndexValid, app, ticks, later);
  }

  /** The application only quits on a pass that delivers Quit. */
  lemma RunStopsOnQuit(app: App, ticks: seq<TickInput>)
    requires ProfileIndexValid(app) && !app.shouldQuit
    requires Run(app, ticks).shouldQuit
    ensures exists k :: 0 <= k < |ticks| && Event.PollEvent(ticks[k].input) == Some(Event.Quit)
  {
    LoopEndsOnAPass(TickStep(), ProfileIndexValid, app, ticks);
    var k, a :| 0 <= k < |ticks| && ProfileIndexValid(a) && !a.shouldQuit &&
      Run(app, ticks) == TickStep()(a, ticks[k]);
    TickQuitsOnlyOnQuit(a, ticks[k]);
  }
}
