/** Key handling: what each application event does to the state, first on
    the screens and then inside the modal dialogs, including the scroll
    arithmetic that keeps a dialog's highlighted row on screen. Every
    fixed-width computation is the program's `u16` arithmetic with release
    wrap-around written out. */
module Handlers {
  import opened Common
  import opened Logger
  import opened UserSettings
  import opened Aws
  import opened AppState
  import opened Actions
  import Event

  /** Fixed texts of the navigation log entry and the Lambda placeholder status. */
  const NAVIGATED_TO: string := "Navigated to "
  const SCREEN_SUFFIX: string := " screen"
  const LAMBDA_INVOKE_PENDING: string := "Lambda invocation coming soon: "

  // ---------------------------------------------------------------------------
  // Tabs
  // ---------------------------------------------------------------------------

  /** The screen behind tab `index`: Home, EC2, Lambda, About, Logs, in that
      order; any other index keeps the current screen. */
  function ScreenForTab(index: nat, current: Screen): (s: Screen)
  {
    if index == 0 then Home
    else if index == 1 then Ec2
    else if index == 2 then Lambda
    else if index == 3 then About
    else if index == 4 then Logs
    else current
  }

  /** The tab a screen sits on. */
  function TabIndex(s: Screen): (i: nat)
    ensures i < 5
  {
    match s
    case Home => 0
    case Ec2 => 1
    case Lambda => 2
    case About => 3
    case Logs => 4
  }

  /** Tabs and screens correspond one to one. */
  lemma TabsMatchScreens(s: Screen, index: nat, current: Screen)
    ensures ScreenForTab(TabIndex(s), current) == s
    ensures index < 5 ==> TabIndex(ScreenForTab(index, current)) == index
    ensures index >= 5 ==> ScreenForTab(index, current) == current
  {
  }

  /** The screen's name as the log prints it. */
  function ScreenName(s: Screen): string
  {
    match s
    case Home => "Home"
    case Ec2 => "Ec2"
    case Lambda => "Lambda"
    case Logs => "Logs"
    case About => "About"
  }

  /** Switches tab. The Logs tab is skipped while the committed settings hide
      the logs panel; a real change resets the scroll and is logged. */
  function NavigateTo(app: App, index: nat, now: int): (r: App)
    ensures var target := ScreenForTab(index, app.currentScreen);
      r.currentScreen == if target == Logs && !app.settings.showLogsPanel then app.currentScreen else target
    ensures r.currentScreen == app.currentScreen ==> r == app
    ensures r.currentScreen != app.currentScreen ==>
      r == app.(currentScreen := r.currentScreen, scrollOffset := 0,
                log := LogInfo(app.log, NAVIGATED_TO + ScreenName(r.currentScreen) + SCREEN_SUFFIX, now))
  {
    var target := ScreenForTab(index, app.currentScreen);
    var target := if target == Logs && !app.settings.showLogsPanel then app.currentScreen else target;
    if target != app.currentScreen then
      app.(currentScreen := target, scrollOffset := 0,
           log := LogInfo(app.log, NAVIGATED_TO + ScreenName(target) + SCREEN_SUFFIX, now))
    else app
  }

  /** With the logs panel hidden, no tab key leads to the Logs screen. */
  lemma HiddenLogsUnreachable(app: App, index: nat, now: int)
    requires !app.settings.showLogsPanel && app.currentScreen != Logs
    ensures NavigateTo(app, index, now).currentScreen != Logs
  {
  }

  /** Pressing the same tab twice is the same as pressing it once. */
  lemma NavigateToIdempotent(app: App, index: nat, now: int, later: int)
    ensures NavigateTo(NavigateTo(app, index, now), index, later) == NavigateTo(app, index, now)
  {
  }

  // ---------------------------------------------------------------------------
  // Moving the selection
  // ---------------------------------------------------------------------------

  /** Lines of content on the scrolling screens; Home and About lay out
      side by side from 100 columns on and need fewer lines there. */
  function ContentHeight(s: Screen, width: nat): (h: nat)
    ensures h <= 58
  {
    match s
    case Home => if width >= 100 then 18 else 25
    case About => if width >= 100 then 30 else 58
    case Logs => 50
    case _ => 0
  }

  /** How far a scrolling screen can scroll: the content height minus the
      window height less 8 lines of tabs, status bar and borders. */
  function ScreenMaxScroll(app: App): (m: nat)
    ensures m <= ContentHeight(app.currentScreen, app.windowWidth)
  {
    SatSub(ContentHeight(app.currentScreen, app.windowWidth), SatSub(app.windowHeight, 8))
  }

  /** Moves a list selection by `delta`, clamped to the list. */
  function MoveIndex(selected: nat, delta: int, len: nat): (r: nat)
    requires len > 0
    ensures r < len
    ensures 0 <= selected + delta < len ==> r == selected + delta
    ensures selected + delta < 0 ==> r == 0
    ensures selected + delta >= len ==> r == len - 1
  {
    Clamp(selected + delta, 0, len - 1)
  }

  /** Up or down on a screen moves only the list selection or the scroll
      position of the current screen. */
  function MoveSelection(app: App, delta: int): (r: App)
    ensures Steady(app, r) && r.settings == app.settings
    ensures r.settingsDraft == app.settingsDraft && r.dialog == app.dialog
  {
    match app.currentScreen
    case Ec2 =>
      if |app.ec2Instances| > 0 then app.(ec2Selected := MoveIndex(app.ec2Selected, delta, |app.ec2Instances|)) else app
    case Lambda =>
      if |app.lambdaFunctions| > 0 then app.(lambdaSelected := MoveIndex(app.lambdaSelected, delta, |app.lambdaFunctions|)) else app
    case _ =>
      if delta > 0 then app.(scrollOffset := Min(U16(app.scrollOffset + 1), ScreenMaxScroll(app)))
      else app.(scrollOffset := SatSub(app.scrollOffset, 1))
  }

  /** On the EC2 and Lambda lists up and down move the selection, never past
      either end and not at all on an empty list. */
  lemma MoveSelectionOnLists(app: App, delta: int)
    ensures app.currentScreen == Ec2 ==>
      MoveSelection(app, delta) ==
        app.(ec2Selected := if |app.ec2Instances| > 0 then MoveIndex(app.ec2Selected, delta, |app.ec2Instances|)
                            else app.ec2Selected)
    ensures app.currentScreen == Lambda ==>
      MoveSelection(app, delta) ==
        app.(lambdaSelected := if |app.lambdaFunctions| > 0 then MoveIndex(app.lambdaSelected, delta, |app.lambdaFunctions|)
                               else app.lambdaSelected)
  {
  }

  /** The other screens scroll one line, within their scroll range when
      moving down. */
  lemma MoveSelectionScrolls(app: App, delta: int)
    requires app.currentScreen !in {Ec2, Lambda}
    ensures var r := MoveSelection(app, delta);
      r == app.(scrollOffset := r.scrollOffset)
    ensures delta > 0 ==>
      var r := MoveSelection(app, delta);
      r.scrollOffset <= ScreenMaxScroll(app) &&
      (app.scrollOffset < ScreenMaxScroll(app) ==> r.scrollOffset == app.scrollOffset + 1)
    ensures delta <= 0 ==> MoveSelection(app, delta).scrollOffset == SatSub(app.scrollOffset, 1)
  {
  }

  /** Down then up returns to the same row on a list, unless the selection
      was already on the last row. */
  lemma MoveDownThenUpRestores(app: App)
    requires app.currentScreen == Ec2
    requires app.ec2Selected + 1 < |app.ec2Instances|
    ensures MoveSelection(MoveSelection(app, 1), -1) == app
  {
    MoveSelectionOnLists(app, 1);
    MoveSelectionOnLists(MoveSelection(app, 1), -1);
  }

  /** Down then up returns to the same line on a scrolling screen, unless
      it was already scrolled to the end. */
  lemma ScrollDownThenUpRestores(app: App)
    requires app.currentScreen !in {Ec2, Lambda}
    requires app.scrollOffset < ScreenMaxScroll(app)
    ensures MoveSelection(MoveSelection(app, 1), -1) == app
  {
    MoveSelectionScrolls(app, 1);
    MoveSelectionScrolls(MoveSelection(app, 1), -1);
  }

  /** Enter on a screen: reloads the EC2 list, announces the highlighted
      Lambda function, and does nothing elsewhere. It never moves a
      selection or a scroll position, never touches the settings or their
      draft, and opens no dialog but the session-expired one, which only the
      EC2 reload can open; off the EC2 screen at most the status line changes. */
  function HandleEnter(app: App, world: World, now: int): (r: App)
    ensures Steady(app, r) && r.settings == app.settings && r.settingsDraft == app.settingsDraft
    ensures r.ec2Selected == app.ec2Selected && r.lambdaSelected == app.lambdaSelected
    ensures r.scrollOffset == app.scrollOffset
    ensures r.dialog == app.dialog || (app.currentScreen == Ec2 && r.dialog == SessionExpired)
    ensures app.currentScreen != Ec2 ==> r == app.(statusMessage := r.statusMessage)
  {
    match app.currentScreen
    case Ec2 => RefreshData(app, world, now)
    case Lambda =>
      if app.lambdaSelected < |app.lambdaFunctions| then
        app.(statusMessage := LAMBDA_INVOKE_PENDING + app.lambdaFunctions[app.lambdaSelected].name)
      else app
    case _ => app
  }

  // ---------------------------------------------------------------------------
  // Dialog geometry
  // ---------------------------------------------------------------------------

  /** The dialog's share of the window height, in percent, and its number
      of content lines. The profile dialog has 5 header lines, one line per
      profile (at least one) and a footer, counted in `u16`. */
  function DialogLayout(d: Dialog, profileCount: nat): (r: (nat, nat))
    ensures r.0 <= 70 && r.1 <= U16_MAX
    ensures d.ConfigureAws? && profileCount <= 100 ==> r.1 == 6 + Max(profileCount, 1)
  {
    match d
    case Setup => (70, 27)
    case Help => (60, 27)
    case SettingsDialog => (60, 15)
    case SessionExpired => (60, 25)
    case ConfirmTerminate(_) => (30, 12)
    case ScheduleAutoStop(_) => (30, 12)
    case Alert(_) => (25, 10)
    case ConfigureAws => (50, U16(U16(5 + U16(Max(profileCount, 1))) + 1))
    case Changelog => (70, 50)
    case NoDialog => (0, 0)
  }

  /** Rows given to a dialog: `percent` of the window height, computed in
      `u16`, so the product wraps for windows taller than 65535 / percent rows. */
  function ChunkHeight(height: nat, percent: nat): (r: nat)
    ensures r <= U16_MAX
    ensures height * percent <= U16_MAX ==> r == height * percent / 100
  {
    U16(height * percent) / 100
  }

  /** How far the open dialog can scroll: its content lines minus the rows
      inside its border. */
  function DialogMaxScroll(app: App): (m: nat)
    ensures m <= U16_MAX
  {
    var layout := DialogLayout(app.dialog, |app.availableProfiles|);
    SatSub(layout.1, SatSub(ChunkHeight(app.windowHeight, layout.0), 2))
  }

  /** The line of the dialog's highlighted row, and the rows available to
      show it, for the dialogs that highlight a row. */
  function SelectionLine(app: App): (r: Option<(nat, nat)>)
    ensures r.Some? <==> app.dialog in {ConfigureAws, SessionExpired, SettingsDialog}
    ensures r.Some? ==> r.value.0 <= U16_MAX && r.value.1 <= U16_MAX
  {
    match app.dialog
    case ConfigureAws => Some((U16(5 + U16(app.selectedProfileIndex)), SatSub(ChunkHeight(app.windowHeight, 50), 3)))
    case SessionExpired => Some((U16(5 + U16(app.selectedProfileIndex)), SatSub(ChunkHeight(app.windowHeight, 50), 3)))
    case SettingsDialog => Some((5 + FieldIndex(app.settingsSelectedField) * 2, SatSub(ChunkHeight(app.windowHeight, 60), 3)))
    case _ => None
  }

  /** The highlighted line is inside the dialog's visible window. */
  predicate SelectionVisible(offset: nat, line: nat, rows: nat)
  {
    offset <= line < offset + rows
  }

  /** Scrolls the dialog just enough to bring the highlighted row into view:
      up to it when it is above the window, down until it is the last
      visible row when it is below, not at all when it is already visible. */
  function EnsureDialogSelectionVisible(app: App): (r: App)
    ensures r == app.(dialogScrollOffset := r.dialogScrollOffset)
    ensures SelectionLine(app).None? ==> r == app
    ensures SelectionLine(app).Some? ==>
      var (line, rows) := SelectionLine(app).value;
      && (SelectionVisible(app.dialogScrollOffset, line, rows) && app.dialogScrollOffset + rows <= U16_MAX ==> r == app)
      && (rows > 0 && app.dialogScrollOffset <= U16_MAX && app.dialogScrollOffset + rows <= U16_MAX ==>
            SelectionVisible(r.dialogScrollOffset, line, rows))
  {
    match SelectionLine(app)
    case None => app
    case Some((line, rows)) =>
      if line < app.dialogScrollOffset then app.(dialogScrollOffset := line)
      else if line >= U16(app.dialogScrollOffset + rows) then
        app.(dialogScrollOffset := SatAddU16(SatSub(line, rows), 1))
      else app
  }

  /** Bringing the selection into view twice is the same as once. */
  lemma EnsureVisibleIdempotent(app: App)
    requires app.dialogScrollOffset <= U16_MAX
    requires SelectionLine(app).Some? ==>
      var (line, rows) := SelectionLine(app).value; rows > 0 && app.dialogScrollOffset + rows <= U16_MAX
    ensures EnsureDialogSelectionVisible(EnsureDialogSelectionVisible(app)) == EnsureDialogSelectionVisible(app)
  {
    var r := EnsureDialogSelectionVisible(app);
    assert SelectionLine(r) == SelectionLine(app);
  }

  // ---------------------------------------------------------------------------
  // Up and down inside a dialog
  // ---------------------------------------------------------------------------

  /** What no event inside a dialog changes: the configuration, the quit
      flag, the profile list, the screen and the window size; and a
      highlighted profile that was on the list stays on it. */
  predicate DialogKeeps(a: App, b: App)
  {
    && a.config == b.config
    && a.shouldQuit == b.shouldQuit
    && a.availableProfiles == b.availableProfiles
    && a.currentScreen == b.currentScreen
    && a.windowWidth == b.windowWidth
    && a.windowHeight == b.windowHeight
    && (ProfileIndexValid(a) ==> ProfileIndexValid(b))
  }

  /** The dialogs whose rows are the profile list. */
  predicate ProfileDialog(d: Dialog)
  {
    d == ConfigureAws || d == SessionExpired
  }

  /** Moves the highlighted profile to `index` and scrolls it into view. */
  function SelectProfile(app: App, index: nat): (r: App)
    ensures r.selectedProfileIndex == index
    ensures r == app.(selectedProfileIndex := index, dialogScrollOffset := r.dialogScrollOffset)
  {
    EnsureDialogSelectionVisible(app.(selectedProfileIndex := index))
  }

  /** Moves the settings dialog to the previous or next field and scrolls it into view. */
  function StepSettingsField(app: App, up: bool): (r: App)
    ensures FieldIndex(r.settingsSelectedField) ==
      if up then (FieldIndex(app.settingsSelectedField) + 5) % 6 else (FieldIndex(app.settingsSelectedField) + 1) % 6
    ensures r == app.(settingsSelectedField := r.settingsSelectedField, dialogScrollOffset := r.dialogScrollOffset)
  {
    EnsureDialogSelectionVisible(NavigateSettingsField(app, up))
  }

  /** Up in a dialog moves only the highlighted field or profile, or the
      scroll position. */
  function DialogUp(app: App): (r: App)
    ensures DialogKeeps(app, r) && r.settings == app.settings
    ensures r.settingsDraft == app.settingsDraft && r.dialog == app.dialog
  {
    if app.dialog == SettingsDialog && app.settingsSelectedField != RefreshInterval then
      StepSettingsField(app, true)
    else if ProfileDialog(app.dialog) && app.selectedProfileIndex > 0 then
      SelectProfile(app, app.selectedProfileIndex - 1)
    else app.(dialogScrollOffset := SatSub(app.dialogScrollOffset, 1))
  }

  /** Up in a dialog: the settings dialog moves to the previous field (and
      scrolls once on the first), the profile dialogs move to the previous
      profile (and scroll once on the first), other dialogs scroll up a line. */
  lemma DialogUpMoves(app: App)
    ensures var r := DialogUp(app);
      r == app.(settingsSelectedField := r.settingsSelectedField,
                selectedProfileIndex := r.selectedProfileIndex, dialogScrollOffset := r.dialogScrollOffset)
    ensures app.dialog == SettingsDialog && app.settingsSelectedField != RefreshInterval ==>
      FieldIndex(DialogUp(app).settingsSelectedField) + 1 == FieldIndex(app.settingsSelectedField)
    ensures ProfileDialog(app.dialog) && app.selectedProfileIndex > 0 ==>
      DialogUp(app).selectedProfileIndex + 1 == app.selectedProfileIndex
    ensures !(app.dialog == SettingsDialog && app.settingsSelectedField != RefreshInterval) &&
            !(ProfileDialog(app.dialog) && app.selectedProfileIndex > 0) ==>
      DialogUp(app) == app.(dialogScrollOffset := SatSub(app.dialogScrollOffset, 1))
  {
  }

  /** One line further down, while the dialog can still scroll. */
  function ScrollDialogDown(app: App): (r: App)
    ensures r == app.(dialogScrollOffset := if app.dialogScrollOffset < DialogMaxScroll(app)
                                            then app.dialogScrollOffset + 1 else app.dialogScrollOffset)
  {
    if app.dialogScrollOffset < DialogMaxScroll(app) then app.(dialogScrollOffset := app.dialogScrollOffset + 1)
    else app
  }

  /** Down in a dialog moves only the highlighted field or profile, or the
      scroll position; the highlighted profile never runs past the list. */
  function DialogDown(app: App): (r: App)
    ensures DialogKeeps(app, r) && r.settings == app.settings
    ensures r.settingsDraft == app.settingsDraft && r.dialog == app.dialog
  {
    if app.dialog == SettingsDialog && app.settingsSelectedField != TestSound then
      StepSettingsField(app, false)
    else if ProfileDialog(app.dialog) && |app.availableProfiles| > 0 &&
            app.selectedProfileIndex < SatSub(|app.availableProfiles|, 1) then
      SelectProfile(app, app.selectedProfileIndex + 1)
    else ScrollDialogDown(app)
  }

  /** Down in a dialog: the settings dialog moves to the next field (and
      scrolls on the last), the profile dialogs move to the next profile
      (and scroll on the last), other dialogs scroll down a line while they
      can. */
  lemma DialogDownMoves(app: App)
    ensures var r := DialogDown(app);
      r == app.(settingsSelectedField := r.settingsSelectedField,
                selectedProfileIndex := r.selectedProfileIndex, dialogScrollOffset := r.dialogScrollOffset)
    ensures app.dialog == SettingsDialog && app.settingsSelectedField != TestSound ==>
      FieldIndex(DialogDown(app).settingsSelectedField) == FieldIndex(app.settingsSelectedField) + 1
    ensures ProfileDialog(app.dialog) && app.selectedProfileIndex + 1 < |app.availableProfiles| ==>
      DialogDown(app).selectedProfileIndex == app.selectedProfileIndex + 1
    ensures !(app.dialog == SettingsDialog && app.settingsSelectedField != TestSound) &&
            !(ProfileDialog(app.dialog) && app.selectedProfileIndex + 1 < |app.availableProfiles|) ==>
      DialogDown(app) == ScrollDialogDown(app)
  {
  }

  /** Down then up on the profile list returns to the same profile. */
  lemma ProfileDownThenUpRestores(app: App)
    requires ProfileDialog(app.dialog)
    requires app.selectedProfileIndex + 1 < |app.availableProfiles|
    ensures DialogUp(DialogDown(app)).selectedProfileIndex == app.selectedProfileIndex
  {
    DialogDownMoves(app);
    DialogUpMoves(DialogDown(app));
  }

  /** Down then up in the settings dialog returns to the same field. */
  lemma SettingsDownThenUpRestores(app: App)
    requires app.dialog == SettingsDialog && app.settingsSelectedField != TestSound
    ensures DialogUp(DialogDown(app)).settingsSelectedField == app.settingsSelectedField
  {
    var d := DialogDown(app);
    DialogDownMoves(app);
    DialogUpMoves(d);
    FieldIndexInjective(DialogUp(d).settingsSelectedField, app.settingsSelectedField);
  }

  /** Scrolling down never goes past the dialog's last line. */
  lemma DialogScrollBounded(app: App)
    requires app.dialogScrollOffset <= DialogMaxScroll(app)
    ensures ScrollDialogDown(app).dialogScrollOffset <= DialogMaxScroll(app)
  {
  }

  // ---------------------------------------------------------------------------
  // Enter inside a dialog
  // ---------------------------------------------------------------------------

  /** How long an instance may run when auto-stop is confirmed: one hour. */
  const AUTO_STOP_SECS: nat := 3600

  /** Enter on an instance dialog closes it, then terminates the instance it
      names (confirmation) or schedules it to stop in one hour. */
  function EnterInstanceDialog(app: App, world: World, now: int): (r: App)
    requires app.dialog.ConfirmTerminate? || app.dialog.ScheduleAutoStop?
    ensures DialogKeeps(app, r) && r.settings == app.settings
    ensures r.settingsDraft == app.settingsDraft && r.dialog != SettingsDialog
  {
    match app.dialog
    case ConfirmTerminate(id) => TerminateInstance(app.(dialog := NoDialog), world, id, now)
    case ScheduleAutoStop(id) => ScheduleInstanceAutoStop(app.(dialog := NoDialog), id, AUTO_STOP_SECS, now)
  }

  /** Enter in the settings dialog plays the test sound on its row and saves
      the draft on every other row; only a saved draft changes the settings. */
  function EnterSettingsDialog(app: App, world: World, now: int): (r: App)
    ensures DialogKeeps(app, r)
    ensures r.settings != app.settings ==> app.settingsDraft.Some? && r.settings == app.settingsDraft.value
    ensures NoNewDraft(app, r)
  {
    if app.settingsSelectedField == TestSound then TriggerTestAlert(app, now) else SaveSettings(app, world, now)
  }

  /** Enter in a profile dialog switches to the highlighted profile, if any. */
  function EnterProfileDialog(app: App, now: int): (r: App)
    requires ProfileIndexValid(app)
    ensures DialogKeeps(app, r) && r.settings == app.settings
    ensures r.settingsDraft == app.settingsDraft && r.dialog == app.dialog
  {
    match HighlightedProfile(app)
    case Some(name) => ActivateProfile(app, name, now)
    case None => app
  }

  /** Enter in a dialog confirms it: terminate or schedule the instance it
      names, save the settings (or play the test sound on its row), switch
      to the highlighted profile, or simply close. */
  function DialogEnter(app: App, world: World, now: int): (r: App)
    requires ProfileIndexValid(app)
    ensures DialogKeeps(app, r)
    ensures r.settings != app.settings ==>
      app.dialog == SettingsDialog && app.settingsDraft.Some? && r.settings == app.settingsDraft.value
  {
    match app.dialog
    case ConfirmTerminate(_) => EnterInstanceDialog(app, world, now)
    case ScheduleAutoStop(_) => EnterInstanceDialog(app, world, now)
    case SettingsDialog => EnterSettingsDialog(app, world, now)
    case ConfigureAws => EnterProfileDialog(app, now)
    case SessionExpired => EnterProfileDialog(app, now)
    case NoDialog => app
    case _ => app.(dialog := NoDialog)
  }

  /** Enter in the terminate confirmation closes it and terminates the
      instance whose id the dialog holds, not the current selection. */
  lemma EnterTerminatesDialogId(app: App, world: World, now: int)
    requires ProfileIndexValid(app) && app.dialog.ConfirmTerminate?
    ensures var r := DialogEnter(app, world, now);
      var id := app.dialog.instanceId;
      && (world.terminateInstance(app.client, id) == Pass ==>
            r.boostRefreshUntilStable && r.lastRefresh == Some(now) && !r.isLoading)
      && (world.terminateInstance(app.client, id).Fail? ==>
            && r.dialog == NoDialog && r.ec2Instances == app.ec2Instances
            && r.boostRefreshUntilStable == app.boostRefreshUntilStable
            && r.toasts == app.toasts +
                 [Toast(CROSS_FAILED_TO + TERMINATE_VERB + ": " + InstanceName(app.ec2Instances, id), ErrorToast, now)])
  {
  }

  /** Enter on an informational dialog (help, setup, changelog, an alert)
      just closes it, and with no dialog open Enter changes nothing here. */
  lemma EnterClosesInformationalDialog(app: App, world: World, now: int)
    requires ProfileIndexValid(app)
    ensures app.dialog in {Help, Setup, Changelog} || app.dialog.Alert? ==>
      DialogEnter(app, world, now) == app.(dialog := NoDialog)
    ensures app.dialog == NoDialog ==> DialogEnter(app, world, now) == app
  {
  }

  /** Enter on the auto-stop dialog closes it and schedules the instance it
      names to stop one hour from now, replacing any earlier schedule. */
  lemma EnterSchedulesAutoStop(app: App, world: World, now: int)
    requires ProfileIndexValid(app) && app.dialog.ScheduleAutoStop?
    ensures var r := DialogEnter(app, world, now);
      && r.dialog == NoDialog
      && |r.autoStopSchedules| > 0
      && r.autoStopSchedules[|r.autoStopSchedules| - 1] == Schedule(app.dialog.instanceId, now + AUTO_STOP_SECS)
      && r.autoStopSchedules[..|r.autoStopSchedules| - 1] == RemoveSchedules(app.autoStopSchedules, app.dialog.instanceId)
  {
  }

  /** Enter in the settings dialog away from the test-sound row commits the
      draft and closes the dialog; on that row it only plays the sound. */
  lemma EnterCommitsSettings(app: App, world: World, now: int)
    requires ProfileIndexValid(app) && app.dialog == SettingsDialog
    ensures app.settingsSelectedField != TestSound && app.settingsDraft.Some? ==>
      var r := DialogEnter(app, world, now);
      r.settings == app.settingsDraft.value && r.settingsDraft == None && r.dialog == NoDialog
    ensures app.settingsSelectedField == TestSound ==>
      var r := DialogEnter(app, world, now);
      r.settings == app.settings && r.effects == app.effects + [PlayAlertSound] && r.dialog == SettingsDialog
  {
  }

  /** Enter in a profile dialog hands the highlighted profile to the client
      rebuild; with no profiles it does nothing. */
  lemma EnterActivatesHighlightedProfile(app: App, world: World, now: int)
    requires ProfileIndexValid(app) && ProfileDialog(app.dialog)
    ensures |app.availableProfiles| == 0 ==> DialogEnter(app, world, now) == app
    ensures |app.availableProfiles| > 0 ==>
      var name := app.availableProfiles[app.selectedProfileIndex];
      var r := DialogEnter(app, world, now);
      r.profileEnv == Some(name) && r.effects == app.effects + [SpawnClientRebuild(name, app.config.awsRegion)]
  {
  }

  // ---------------------------------------------------------------------------
  // Event dispatch
  // ---------------------------------------------------------------------------

  /** Closes the dialog; the settings dialog is cancelled, dropping its draft. */
  function CloseDialog(app: App, now: int): (r: App)
    ensures DialogKeeps(app, r) && r.settings == app.settings
    ensures r.dialog == NoDialog
    ensures app.dialog == SettingsDialog ==> r == CancelSettings(app, now)
    ensures app.dialog != SettingsDialog ==> r == app.(dialog := NoDialog)
  {
    if app.dialog == SettingsDialog then CancelSettings(app, now) else app.(dialog := NoDialog)
  }

  /** Opens a dialog scrolled to the top. */
  function OpenDialog(app: App, d: Dialog): (r: App)
    ensures Steady(app, r) && DialogKeeps(app, r) && r.settings == app.settings
    ensures r.dialog == d && r.dialogScrollOffset == 0
    ensures r == app.(dialog := d, dialogScrollOffset := 0)
  {
    app.(dialog := d, dialogScrollOffset := 0)
  }

  /** Left or right inside a dialog edits the settings draft; in other
      dialogs it does nothing. */
  function DialogModify(app: App, delta: int): (r: App)
    ensures DialogKeeps(app, r) && r.settings == app.settings
    ensures NoNewDraft(app, r)
  {
    if app.dialog == SettingsDialog then ModifyCurrentSetting(app, delta) else app
  }

  /** The login key starts a single sign-on login from the dialogs that offer
      it (session expired, profile selection, setup); others ignore it. */
  function DialogLogin(app: App, now: int): (r: App)
    requires ProfileIndexValid(app)
    ensures DialogKeeps(app, r) && r.settings == app.settings
    ensures r.settingsDraft == app.settingsDraft && r.dialog == app.dialog
  {
    if app.dialog in {SessionExpired, ConfigureAws, Setup} then LoginWithSso(app, now) else app
  }

  /** The refresh key in the session-expired dialog closes it and retries the
      refresh; other dialogs ignore it. */
  function DialogRefresh(app: App, world: World, now: int): (r: App)
    ensures DialogKeeps(app, r) && r.settings == app.settings
    ensures r.settingsDraft == app.settingsDraft && NoNewDraft(app, r)
  {
    if app.dialog == SessionExpired then RefreshData(app.(dialog := NoDialog), world, now) else app
  }

  /** An event while a dialog is open. Nothing quits, switches screen or
      resizes, the highlighted profile stays on the list, and the settings
      change only when Enter saves the settings dialog's draft, which they
      then become. */
  function HandleDialogEvent(app: App, world: World, ev: Event.AppEvent, now: int): (r: App)
    requires ProfileIndexValid(app)
    ensures DialogKeeps(app, r)
    ensures r.settings != app.settings ==>
      app.dialog == SettingsDialog && ev == Event.Enter && app.settingsDraft.Some? && r.settings == app.settingsDraft.value
    ensures NoNewDraft(app, r)
  {
    match ev
    case Quit => CloseDialog(app, now)
    case CancelSettings => CloseDialog(app, now)
    case Up => DialogUp(app)
    case Down => DialogDown(app)
    case Enter => DialogEnter(app, world, now)
    case ConfigureAws => OpenDialog(app, ConfigureAws)
    case ModifySettingValue(delta) => DialogModify(app, delta)
    case SsoLogin => DialogLogin(app, now)
    case Refresh => DialogRefresh(app, world, now)
    case _ => app
  }

  /** Quit and Esc close the dialog instead of quitting (cancelling the
      settings dialog), and 'c' switches to the profile picker. */
  lemma DialogEventRoutes(app: App, world: World, ev: Event.AppEvent, now: int)
    requires ProfileIndexValid(app)
    ensures ev == Event.Quit || ev == Event.CancelSettings ==> HandleDialogEvent(app, world, ev, now) == CloseDialog(app, now)
    ensures ev == Event.ConfigureAws ==>
      HandleDialogEvent(app, world, ev, now) == app.(dialog := ConfigureAws, dialogScrollOffset := 0)
  {
  }

  /** Left and right edit only the settings draft, and only in the settings dialog. */
  lemma DialogModifyRoute(app: App, world: World, delta: int, now: int)
    requires ProfileIndexValid(app)
    ensures HandleDialogEvent(app, world, Event.ModifySettingValue(delta), now) ==
      if app.dialog == SettingsDialog then ModifyCurrentSetting(app, delta) else app
  {
  }

  /** The login key works in the session-expired, profile and setup dialogs. */
  lemma DialogLoginRoute(app: App, world: World, now: int)
    requires ProfileIndexValid(app)
    ensures HandleDialogEvent(app, world, Event.SsoLogin, now) ==
      if app.dialog in {SessionExpired, ConfigureAws, Setup} then LoginWithSso(app, now) else app
  {
  }

  /** The refresh key works only in the session-expired dialog, which it
      closes before refreshing. */
  lemma DialogRefreshRoute(app: App, world: World, now: int)
    requires ProfileIndexValid(app)
    ensures HandleDialogEvent(app, world, Event.Refresh, now) ==
      if app.dialog == SessionExpired then RefreshData(app.(dialog := NoDialog), world, now) else app
  {
  }

  /** Tabs, window resizes and the screen actions are ignored while a dialog is open. */
  lemma DialogIgnoresScreenEvents(app: App, world: World, ev: Event.AppEvent, now: int)
    requires ProfileIndexValid(app)
    requires ev.NavigateTab? || ev.Resize? ||
             (ev in {Event.Start, Event.Stop, Event.Terminate, Event.Schedule, Event.ShowHelp, Event.OpenSettings,
                     Event.ShowChangelog, Event.NoEvent})
    ensures HandleDialogEvent(app, world, ev, now) == app
  {
  }

  /** With no dialog open, the events that open one. */
  function OpenDialogFor(app: App, ev: Event.AppEvent, now: int): (r: App)
    requires ev in {Event.Terminate, Event.Schedule, Event.ShowHelp, Event.OpenSettings, Event.ConfigureAws, Event.ShowChangelog}
    ensures Steady(app, r) && r.settings == app.settings
    ensures ev != Event.OpenSettings ==> r.settingsDraft == app.settingsDraft && NoNewDraft(app, r)
  {
    match ev
    case Terminate => ConfirmTerminateInstance(app)
    case Schedule => OpenScheduleDialog(app)
    case ShowHelp => OpenDialog(app, Help)
    case OpenSettings => OpenSettingsDialog(app, now)
    case ConfigureAws => OpenDialog(app, ConfigureAws)
    case ShowChangelog => if app.currentScreen == About then OpenDialog(app, Changelog) else app
  }

  /** With no dialog open, the events that call the cloud. */
  function RunCommandFor(app: App, world: World, ev: Event.AppEvent, now: int): (r: App)
    requires ev in {Event.Refresh, Event.Start, Event.Stop, Event.Enter}
    ensures Steady(app, r) && r.settings == app.settings
    ensures r.settingsDraft == app.settingsDraft && NoNewDraft(app, r)
  {
    match ev
    case Refresh => RefreshData(app, world, now)
    case Start => StartSelectedInstance(app, world, now)
    case Stop => StopSelectedInstance(app, world, now)
    case Enter => HandleEnter(app, world, now)
  }

  /** An event with no dialog open. Only Quit quits; only the tab keys
      change the screen and only a resize the window; the profile list, the
      highlighted profile and the settings never change. */
  function HandleScreenEvent(app: App, world: World, ev: Event.AppEvent, now: int): (r: App)
    ensures r.config == app.config
    ensures r.shouldQuit <==> app.shouldQuit || ev == Event.Quit
    ensures r.availableProfiles == app.availableProfiles && r.selectedProfileIndex == app.selectedProfileIndex
    ensures r.settings == app.settings
    ensures !ev.NavigateTab? ==> r.currentScreen == app.currentScreen
    ensures !ev.Resize? ==> r.windowWidth == app.windowWidth && r.windowHeight == app.windowHeight
    ensures ev != Event.OpenSettings ==> r.settingsDraft == app.settingsDraft && NoNewDraft(app, r)
  {
    match ev
    case Quit => app.(shouldQuit := true)
    case NavigateTab(index) => NavigateTo(app, index, now)
    case Up => MoveSelection(app, -1)
    case Down => MoveSelection(app, 1)
    case Resize(w, h) => app.(windowWidth := w, windowHeight := h)
    case Refresh => RunCommandFor(app, world, ev, now)
    case Start => RunCommandFor(app, world, ev, now)
    case Stop => RunCommandFor(app, world, ev, now)
    case Enter => RunCommandFor(app, world, ev, now)
    case Terminate => OpenDialogFor(app, ev, now)
    case Schedule => OpenDialogFor(app, ev, now)
    case ShowHelp => OpenDialogFor(app, ev, now)
    case OpenSettings => OpenDialogFor(app, ev, now)
    case ConfigureAws => OpenDialogFor(app, ev, now)
    case ShowChangelog => OpenDialogFor(app, ev, now)
    case _ => app
  }

  /** What each event does with no dialog open: Quit sets the quit flag, a
      resize records the new window size, the changelog opens only on the
      About screen, and the dialog-only keys are ignored. */
  lemma ScreenEventRoutes(app: App, world: World, ev: Event.AppEvent, now: int)
    ensures ev == Event.Quit ==> HandleScreenEvent(app, world, ev, now) == app.(shouldQuit := true)
    ensures ev.Resize? ==> HandleScreenEvent(app, world, ev, now) == app.(windowWidth := ev.width, windowHeight := ev.height)
    ensures ev == Event.ShowChangelog ==>
      HandleScreenEvent(app, world, ev, now) == if app.currentScreen == About then OpenDialog(app, Changelog) else app
    ensures ev.ModifySettingValue? || ev in {Event.CancelSettings, Event.SsoLogin, Event.NoEvent} ==>
      HandleScreenEvent(app, world, ev, now) == app
  {
  }

  /** With no dialog open, Enter on the EC2 screen is the refresh key. */
  lemma EnterOnEc2IsRefresh(app: App, world: World, now: int)
    requires app.currentScreen == Ec2
    ensures HandleScreenEvent(app, world, Event.Enter, now) == HandleScreenEvent(app, world, Event.Refresh, now)
  {
    assert HandleScreenEvent(app, world, Event.Enter, now) == HandleEnter(app, world, now);
    assert HandleScreenEvent(app, world, Event.Refresh, now) == RefreshData(app, world, now);
  }

  /** With no dialog open, Enter on the Lambda screen only names the
      highlighted function in the status line; on the other screens, and
      with no function highlighted, it does nothing. */
  lemma EnterOnScreens(app: App, world: World, now: int)
    ensures app.currentScreen == Lambda && app.lambdaSelected < |app.lambdaFunctions| ==>
      HandleScreenEvent(app, world, Event.Enter, now).statusMessage ==
        LAMBDA_INVOKE_PENDING + app.lambdaFunctions[app.lambdaSelected].name
    ensures app.currentScreen in {Home, About, Logs} || (app.currentScreen == Lambda && app.lambdaSelected >= |app.lambdaFunctions|) ==>
      HandleScreenEvent(app, world, Event.Enter, now) == app
  {
    assert HandleScreenEvent(app, world, Event.Enter, now) == HandleEnter(app, world, now);
  }

  /** Handles one event: an open dialog takes every event; otherwise the
      screen does. The application quits exactly on Quit with no dialog
      open (with a dialog open, Quit closes it instead), and the highlighted
      profile always stays on the list, so reading it never fails. */
  function HandleEvent(app: App, world: World, ev: Event.AppEvent, now: int): (r: App)
    requires ProfileIndexValid(app)
    ensures ProfileIndexValid(r)
    ensures r.config == app.config && r.availableProfiles == app.availableProfiles
    ensures r.shouldQuit <==> app.shouldQuit || (app.dialog == NoDialog && ev == Event.Quit)
    ensures r.settings != app.settings ==>
      app.dialog == SettingsDialog && ev == Event.Enter && app.settingsDraft.Some? && r.settings == app.settingsDraft.value
  {
    if app.dialog != NoDialog then HandleDialogEvent(app, world, ev, now)
    else HandleScreenEvent(app, world, ev, now)
  }

  /** A settings draft comes into being only when the settings key opens the
      settings dialog with no dialog open, and it then holds the current
      settings. */
  lemma DraftAppearsWithSettingsDialog(app: App, world: World, ev: Event.AppEvent, now: int)
    requires ProfileIndexValid(app)
    ensures var r := HandleEvent(app, world, ev, now);
      r.settingsDraft.Some? && app.settingsDraft.None? ==>
        && app.dialog == NoDialog && ev == Event.OpenSettings
        && r.dialog == SettingsDialog && r.settingsDraft == Some(app.settings)
  {
  }

  /** The settings dialog is only ever entered through the settings key, which
      starts a fresh draft of the current settings at the first field: a draft
      left over from an earlier settings dialog is never edited or saved. */
  lemma SettingsDialogStartsFresh(app: App, world: World, ev: Event.AppEvent, now: int)
    requires ProfileIndexValid(app)
    ensures var r := HandleEvent(app, world, ev, now);
      r.dialog == SettingsDialog && app.dialog != SettingsDialog ==>
        && app.dialog == NoDialog && ev == Event.OpenSettings
        && r.settingsDraft == Some(app.settings) && r.settingsSelectedField == RefreshInterval
  {
  }

  /** The draft outlives the settings dialog when the profile key switches
      straight from it to the profile picker: unlike Esc, this does not
      cancel the draft. */
  lemma ProfileKeyKeepsDraft(app: App, world: World, now: int)
    requires ProfileIndexValid(app) && app.dialog == SettingsDialog && app.settingsDraft.Some?
    ensures var r := HandleEvent(app, world, Event.ConfigureAws, now);
      r.dialog == ConfigureAws && r.settingsDraft == app.settingsDraft && r.settings == app.settings
  {
  }

  /** With a dialog open, Quit closes it. */
  lemma QuitInDialogCloses(app: App, world: World, now: int)
    requires ProfileIndexValid(app) && app.dialog != NoDialog
    ensures HandleEvent(app, world, Event.Quit, now).dialog == NoDialog
    ensures !HandleEvent(app, world, Event.Quit, now).shouldQuit <==> !app.shouldQuit
  {
    DialogEventRoutes(app, world, Event.Quit, now);
  }
}
