/** The application's state record and the vocabulary around it: screens,
    modal dialogs, toasts, asynchronous notifications, and the world the
    state machine talks to (the cloud client and the settings store), which
    the model receives as an oracle. */
module AppState {
  import opened Common
  import opened Config
  import opened Logger
  import opened UserSettings
  import opened Aws

  /** The five tabs. */
  datatype Screen = Home | Ec2 | Lambda | Logs | About

  /** The screen the application opens on. */
  function DefaultScreen(): (s: Screen)
    ensures s == Home
  {
    Home
  }

  /** At most one modal dialog is open; `NoDialog` is the program's `None`
      and `SettingsDialog` its `Settings`. */
  datatype Dialog =
    | NoDialog
    | Help
    | Setup
    | SettingsDialog
    | SessionExpired
    | ConfirmTerminate(instanceId: string)
    | ScheduleAutoStop(instanceId: string)
    | Alert(message: string)
    | ConfigureAws
    | Changelog

  datatype ToastType = SuccessToast | ErrorToast | InfoToast

  datatype Toast = Toast(message: string, toastType: ToastType, createdAt: int)

  /** The identity a cloud client was built with: the active profile and the
      region override at construction time. */
  datatype Client = Client(profile: Option<string>, region: Option<string>)

  /** Results that background work posts to the application's channel. */
  datatype Notification =
    | SsoLoginSuccess(message: string, profile: string)
    | SsoLoginFailed(error: string)
    | ProfileActivated(client: Client, profile: string)
    | ProfileActivationFailed(error: string)

  /** Fire-and-forget work handed off the main thread, recorded in order. */
  datatype Effect =
    | PlayAlertSound
    | SpawnSsoLogin(loginProfile: Option<string>)
    | SpawnClientRebuild(profile: string, region: Option<string>)

  /** An auto-stop entry: the instance and the time it is due to stop. */
  datatype Schedule = Schedule(instanceId: string, stopTime: int)

  /** The external services as the state machine sees them at one moment:
      what the provider answers each cloud call for a given client (the raw
      records of the two listings, or the error), and whether saving settings
      succeeds. */
  datatype World = World(
    describeInstances: Client -> Result<seq<seq<RawInstance>>>,
    listFunctions: Client -> Result<seq<RawFunction>>,
    startInstance: (Client, string) -> Outcome,
    stopInstance: (Client, string) -> Outcome,
    terminateInstance: (Client, string) -> Outcome,
    saveSettings: Settings -> Outcome)

  datatype App = App(
    // core
    config: AppConfig,
    client: Client,
    shouldQuit: bool,
    currentScreen: Screen,
    awsConfigured: bool,
    // status
    statusMessage: string,
    isLoading: bool,
    scrollOffset: nat,                  // a u16 in the program
    // EC2
    ec2Instances: seq<Instance>,
    ec2Selected: nat,
    ec2TableSelection: Option<nat>,
    autoStopSchedules: seq<Schedule>,
    // Lambda
    lambdaFunctions: seq<LambdaFunction>,
    lambdaSelected: nat,
    // dialogs
    dialog: Dialog,
    // alerts
    pendingAlerts: seq<string>,
    lastAlertCheck: Option<int>,
    // auto-refresh
    lastRefresh: Option<int>,
    autoRefreshInterval: nat,           // seconds
    boostRefreshUntilStable: bool,
    // toasts
    toasts: seq<Toast>,
    // window
    windowWidth: nat,
    windowHeight: nat,
    dialogScrollOffset: nat,            // a u16 in the program
    // settings
    settings: Settings,
    settingsSelectedField: SettingsField,
    settingsDraft: Option<Settings>,
    // logging
    log: LogManager,
    // profiles
    availableProfiles: seq<string>,
    selectedProfileIndex: nat,
    activeProfileName: Option<string>,
    // the AWS_PROFILE environment variable
    profileEnv: Option<string>,
    // background work handed off so far
    effects: seq<Effect>)

  /** The highlighted profile can be read whenever there is one to read. */
  predicate ProfileIndexValid(app: App)
  {
    |app.availableProfiles| == 0 || app.selectedProfileIndex < |app.availableProfiles|
  }

  /** The parts of the state that actions never touch: the configuration, the
      quit flag, the current screen, the window, and the profile list with its
      highlighted entry. */
  predicate Steady(a: App, b: App)
  {
    && a.config == b.config
    && a.shouldQuit == b.shouldQuit
    && a.currentScreen == b.currentScreen
    && a.windowWidth == b.windowWidth
    && a.windowHeight == b.windowHeight
    && a.availableProfiles == b.availableProfiles
    && a.selectedProfileIndex == b.selectedProfileIndex
  }

  /** `b` holds no settings draft that `a` lacked, and shows the settings
      dialog only if `a` did. */
  predicate NoNewDraft(a: App, b: App)
  {
    && (a.settingsDraft.None? ==> b.settingsDraft.None?)
    && (b.dialog == SettingsDialog ==> a.dialog == SettingsDialog)
  }
}
