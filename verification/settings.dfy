/** User-editable settings: the cyclic value lists behind the settings dialog,
    the two toggles, display formatting, log-level filtering, and the order of
    the dialog's fields. */
module UserSettings {
  import opened Common
  import opened Logger

  datatype Settings = Settings(
    refreshIntervalSecs: nat,
    showLogsPanel: bool,
    logLevel: LogLevel,
    alertThresholdSecs: nat,
    soundEnabled: bool,
    defaultProfile: Option<string>)

  /** The refresh intervals the dialog offers: 15 s, 30 s, 1 min, 2 min, 5 min. */
  const REFRESH_INTERVALS: seq<nat> := [15, 30, 60, 120, 300]
  /** Position used for a value not in the list (60 s). */
  const REFRESH_FALLBACK_INDEX: nat := 2

  /** The alert thresholds the dialog offers: 30 min, 1 h, 2 h, 4 h, 8 h. */
  const ALERT_THRESHOLDS: seq<nat> := [1800, 3600, 7200, 14400, 28800]
  /** Position used for a value not in the list (1 h). */
  const ALERT_FALLBACK_INDEX: nat := 1

  /** Refresh every minute, logs tab hidden, Info level, one-hour alerts, sound on. */
  function DefaultSettings(): (s: Settings)
    ensures s.refreshIntervalSecs == 60 && !s.showLogsPanel && s.logLevel == Info
    ensures s.alertThresholdSecs == 3600 && s.soundEnabled && s.defaultProfile == None
  {
    Settings(60, false, Info, 3600, true, None)
  }

  // ---------------------------------------------------------------------------
  // Cycling through a fixed list of values
  // ---------------------------------------------------------------------------

  /** One step forward or back around a cycle of `n` positions. */
  function StepIndex(i: nat, n: nat, forward: bool): (j: nat)
    requires i < n
    ensures j < n
  {
    if forward then (i + 1) % n
    else if i == 0 then n - 1 else i - 1
  }

  /** Forward is `+1` and back is `-1`, both modulo `n`. */
  lemma StepIndexModular(i: nat, n: nat)
    requires i < n
    ensures StepIndex(i, n, true) == (i + 1) % n
    ensures StepIndex(i, n, false) == (i + n - 1) % n
  {
    if i == 0 {
      assert (n - 1) % n == n - 1;
    } else {
      assert (i + n - 1) % n == i - 1;
    }
  }

  /** Stepping one way then the other returns to the start. */
  lemma StepIndexInverse(i: nat, n: nat, forward: bool)
    requires i < n
    ensures StepIndex(StepIndex(i, n, forward), n, !forward) == i
  {
    if i + 1 < n {
      assert (i + 1) % n == i + 1;
    } else {
      assert (i + 1) % n == 0;
    }
  }

  /** The value after (or before) `x` in `values`, wrapping at both ends. */
  function CycleValue(values: seq<nat>, x: nat, fallback: nat, forward: bool): (r: nat)
    requires fallback < |values|
    ensures r in values
  {
    values[StepIndex(PositionOr(values, x, fallback), |values|, forward)]
  }

  predicate NoDuplicates(values: seq<nat>)
  {
    forall i, j :: 0 <= i < j < |values| ==> values[i] != values[j]
  }

  /** In a list without repeats, the value at position `j` is found at `j`. */
  lemma IndexOfDistinct(values: seq<nat>, j: nat)
    requires NoDuplicates(values)
    requires j < |values|
    ensures IndexOf(values, values[j]) == j
  {
  }

  /** In a list without repeats, cycling from the value at position `j` lands on
      the neighbouring position. */
  lemma CycleValueAt(values: seq<nat>, j: nat, fallback: nat, forward: bool)
    requires fallback < |values|
    requires NoDuplicates(values)
    requires j < |values|
    ensures CycleValue(values, values[j], fallback, forward) == values[StepIndex(j, |values|, forward)]
  {
    IndexOfDistinct(values, j);
  }

  /** In a list without repeats, cycling from the value at position `j` moves
      to position `j + 1` forward and `j - 1` back, modulo the list length. */
  lemma CycleValueNeighbours(values: seq<nat>, j: nat, fallback: nat)
    requires fallback < |values|
    requires NoDuplicates(values)
    requires j < |values|
    ensures CycleValue(values, values[j], fallback, true) == values[(j + 1) % |values|]
    ensures CycleValue(values, values[j], fallback, false) == values[(j + |values| - 1) % |values|]
  {
    CycleValueAt(values, j, fallback, true);
    CycleValueAt(values, j, fallback, false);
    StepIndexModular(j, |values|);
  }

  /** In a list without repeats, stepping forward then back returns to any listed value. */
  lemma CycleValueRoundTrip(values: seq<nat>, x: nat, fallback: nat, forward: bool)
    requires fallback < |values|
    requires NoDuplicates(values)
    requires x in values
    ensures CycleValue(values, CycleValue(values, x, fallback, forward), fallback, !forward) == x
  {
    var i := IndexOf(values, x);
    var j := StepIndex(i, |values|, forward);
    CycleValueAt(values, i, fallback, forward);
    CycleValueAt(values, j, fallback, !forward);
    StepIndexInverse(i, |values|, forward);
  }

  lemma RefreshIntervalsDistinct()
    ensures NoDuplicates(REFRESH_INTERVALS)
  {
  }

  lemma AlertThresholdsDistinct()
    ensures NoDuplicates(ALERT_THRESHOLDS)
  {
  }

  function CycleRefreshInterval(s: Settings, forward: bool): (r: Settings)
    ensures r.refreshIntervalSecs in REFRESH_INTERVALS
    ensures r == s.(refreshIntervalSecs := r.refreshIntervalSecs)
  {
    s.(refreshIntervalSecs := CycleValue(REFRESH_INTERVALS, s.refreshIntervalSecs, REFRESH_FALLBACK_INDEX, forward))
  }

  function CycleAlertThreshold(s: Settings, forward: bool): (r: Settings)
    ensures r.alertThresholdSecs in ALERT_THRESHOLDS
    ensures r == s.(alertThresholdSecs := r.alertThresholdSecs)
  {
    s.(alertThresholdSecs := CycleValue(ALERT_THRESHOLDS, s.alertThresholdSecs, ALERT_FALLBACK_INDEX, forward))
  }

  /** Forward then back (or back then forward) restores a listed refresh interval. */
  lemma RefreshIntervalRoundTrip(s: Settings, forward: bool)
    requires s.refreshIntervalSecs in REFRESH_INTERVALS
    ensures CycleRefreshInterval(CycleRefreshInterval(s, forward), !forward) == s
  {
    RefreshIntervalsDistinct();
    CycleValueRoundTrip(REFRESH_INTERVALS, s.refreshIntervalSecs, REFRESH_FALLBACK_INDEX, forward);
  }

  /** From the listed interval at position `j`, forward moves to position `j + 1`
      and back to position `j - 1`, both modulo the list length. */
  lemma RefreshIntervalNeighbours(s: Settings, j: nat)
    requires j < |REFRESH_INTERVALS| && s.refreshIntervalSecs == REFRESH_INTERVALS[j]
    ensures CycleRefreshInterval(s, true).refreshIntervalSecs == REFRESH_INTERVALS[(j + 1) % 5]
    ensures CycleRefreshInterval(s, false).refreshIntervalSecs == REFRESH_INTERVALS[(j + 4) % 5]
  {
    RefreshIntervalsDistinct();
    CycleValueNeighbours(REFRESH_INTERVALS, j, REFRESH_FALLBACK_INDEX);
  }

  /** From the listed threshold at position `j`, forward moves to position `j + 1`
      and back to position `j - 1`, both modulo the list length. */
  lemma AlertThresholdNeighbours(s: Settings, j: nat)
    requires j < |ALERT_THRESHOLDS| && s.alertThresholdSecs == ALERT_THRESHOLDS[j]
    ensures CycleAlertThreshold(s, true).alertThresholdSecs == ALERT_THRESHOLDS[(j + 1) % 5]
    ensures CycleAlertThreshold(s, false).alertThresholdSecs == ALERT_THRESHOLDS[(j + 4) % 5]
  {
    AlertThresholdsDistinct();
    CycleValueNeighbours(ALERT_THRESHOLDS, j, ALERT_FALLBACK_INDEX);
  }

  /** An unlisted interval is treated as 60 s: forward gives 2 min, back gives 30 s. */
  lemma UnlistedRefreshInterval(s: Settings)
    requires s.refreshIntervalSecs !in REFRESH_INTERVALS
    ensures CycleRefreshInterval(s, true).refreshIntervalSecs == 120
    ensures CycleRefreshInterval(s, false).refreshIntervalSecs == 30
  {
  }

  /** Forward then back (or back then forward) restores a listed alert threshold. */
  lemma AlertThresholdRoundTrip(s: Settings, forward: bool)
    requires s.alertThresholdSecs in ALERT_THRESHOLDS
    ensures CycleAlertThreshold(CycleAlertThreshold(s, forward), !forward) == s
  {
    AlertThresholdsDistinct();
    CycleValueRoundTrip(ALERT_THRESHOLDS, s.alertThresholdSecs, ALERT_FALLBACK_INDEX, forward);
  }

  /** An unlisted threshold is treated as 1 h: forward gives 2 h, back gives 30 min. */
  lemma UnlistedAlertThreshold(s: Settings)
    requires s.alertThresholdSecs !in ALERT_THRESHOLDS
    ensures CycleAlertThreshold(s, true).alertThresholdSecs == 7200
    ensures CycleAlertThreshold(s, false).alertThresholdSecs == 1800
  {
  }

  // ---------------------------------------------------------------------------
  // Toggles
  // ---------------------------------------------------------------------------

  function ToggleLogsPanel(s: Settings): (r: Settings)
    ensures r.showLogsPanel != s.showLogsPanel
    ensures r == s.(showLogsPanel := r.showLogsPanel)
  {
    s.(showLogsPanel := !s.showLogsPanel)
  }

  function ToggleSound(s: Settings): (r: Settings)
    ensures r.soundEnabled != s.soundEnabled
    ensures r == s.(soundEnabled := r.soundEnabled)
  {
    s.(soundEnabled := !s.soundEnabled)
  }

  /** Each toggle undoes itself. */
  lemma TogglesAreInvolutions(s: Settings)
    ensures ToggleLogsPanel(ToggleLogsPanel(s)) == s
    ensures ToggleSound(ToggleSound(s)) == s
  {
  }

  // ---------------------------------------------------------------------------
  // Formatting
  // ---------------------------------------------------------------------------

  /** Seconds per unit of a formatted duration suffix. */
  function UnitSeconds(unit: char): nat
  {
    if unit == 's' then 1 else if unit == 'm' then 60 else 3600
  }

  /** "Ns" below a minute, whole minutes below an hour, whole hours otherwise. */
  function FormatSeconds(secs: nat): (r: string)
    ensures |r| >= 2
    ensures r[|r| - 1] == (if secs < 60 then 's' else if secs < 3600 then 'm' else 'h')
    ensures forall i :: 0 <= i < |r| - 1 ==> IsDigit(r[i])
  {
    if secs < 60 then NatToString(secs) + "s"
    else if secs < 3600 then NatToString(secs / 60) + "m"
    else NatToString(secs / 3600) + "h"
  }

  /** Reading a formatted duration back gives the value truncated to its unit. */
  lemma FormatSecondsReadsBack(secs: nat)
    ensures var r := FormatSeconds(secs);
            var unit := r[|r| - 1];
            ParseNat(r[..|r| - 1]) == secs / UnitSeconds(unit)
  {
    var r := FormatSeconds(secs);
    if secs < 60 {
      assert r[..|r| - 1] == NatToString(secs);
      ParseNatToString(secs);
    } else if secs < 3600 {
      assert r[..|r| - 1] == NatToString(secs / 60);
      ParseNatToString(secs / 60);
    } else {
      assert r[..|r| - 1] == NatToString(secs / 3600);
      ParseNatToString(secs / 3600);
    }
  }

  function FormatRefreshInterval(s: Settings): (r: string)
    ensures |r| >= 2 && r[|r| - 1] in {'s', 'm', 'h'}
    ensures forall i :: 0 <= i < |r| - 1 ==> IsDigit(r[i])
    ensures ParseNat(r[..|r| - 1]) == s.refreshIntervalSecs / UnitSeconds(r[|r| - 1])
  {
    FormatSecondsReadsBack(s.refreshIntervalSecs);
    FormatSeconds(s.refreshIntervalSecs)
  }

  function FormatAlertThreshold(s: Settings): (r: string)
    ensures |r| >= 2 && r[|r| - 1] in {'s', 'm', 'h'}
    ensures forall i :: 0 <= i < |r| - 1 ==> IsDigit(r[i])
    ensures ParseNat(r[..|r| - 1]) == s.alertThresholdSecs / UnitSeconds(r[|r| - 1])
  {
    FormatSecondsReadsBack(s.alertThresholdSecs);
    FormatSeconds(s.alertThresholdSecs)
  }

  /** Every listed refresh interval and alert threshold displays in its natural unit. */
  lemma FormatListedValues()
    ensures FormatSeconds(15) == "15s" && FormatSeconds(30) == "30s"
    ensures FormatSeconds(60) == "1m" && FormatSeconds(120) == "2m" && FormatSeconds(300) == "5m"
    ensures FormatSeconds(1800) == "30m" && FormatSeconds(3600) == "1h" && FormatSeconds(28800) == "8h"
  {
  }

  // ---------------------------------------------------------------------------
  // Log level
  // ---------------------------------------------------------------------------

  /** Debug -> Info -> Warning -> Error -> Debug; Success is read as Info. */
  function CycleLogLevel(s: Settings, forward: bool): (r: Settings)
    ensures r.logLevel != Success
    ensures r == s.(logLevel := r.logLevel)
    ensures s.logLevel == Success ==> r.logLevel == Info
  {
    var next := if forward then
      match s.logLevel
      case Debug => Info
      case Info => Warning
      case Warning => Error
      case Error => Debug
      case Success => Info
    else
      match s.logLevel
      case Debug => Error
      case Info => Debug
      case Warning => Info
      case Error => Warning
      case Success => Info;
    s.(logLevel := next)
  }

  /** Position of a selectable level in the cycle Debug, Info, Warning, Error. */
  function LevelCyclePosition(l: LogLevel): nat
  {
    match l
    case Debug => 0
    case Info => 1
    case Success => 1
    case Warning => 2
    case Error => 3
  }

  /** Cycling moves one position around the four-level cycle in the chosen direction,
      and the two directions undo each other on every level except Success. */
  lemma CycleLogLevelIsRotation(s: Settings, forward: bool)
    ensures LevelCyclePosition(CycleLogLevel(s, forward).logLevel) ==
            if s.logLevel == Success then 1
            else if forward then (LevelCyclePosition(s.logLevel) + 1) % 4
            else (LevelCyclePosition(s.logLevel) + 3) % 4
    ensures s.logLevel != Success ==> CycleLogLevel(CycleLogLevel(s, forward), !forward) == s
  {
  }

  /** The level's label; Success shares Info's label, the others are distinct. */
  function FormatLogLevel(s: Settings): (r: string)
    ensures r == "Info" <==> s.logLevel == Info || s.logLevel == Success
  {
    match s.logLevel
    case Debug => "Debug (All)"
    case Info => "Info"
    case Warning => "Warning"
    case Error => "Error Only"
    case Success => "Info"
  }

  /** Severity rank used for filtering; Success ranks with Info. */
  function Severity(l: LogLevel): nat
  {
    match l
    case Debug => 0
    case Info => 1
    case Success => 1
    case Warning => 2
    case Error => 3
  }

  /** Whether the log view shows an entry of `level` under the configured minimum. */
  function ShouldShowLog(s: Settings, level: LogLevel): (r: bool)
    ensures r <==> Severity(level) >= Severity(s.logLevel)
  {
    match s.logLevel
    case Debug => true
    case Info => level != Debug
    case Warning => level == Warning || level == Error
    case Error => level == Error
    case Success => level != Debug
  }

  // ---------------------------------------------------------------------------
  // Settings dialog fields
  // ---------------------------------------------------------------------------

  datatype SettingsField = RefreshInterval | ShowLogsPanel | LogLevelField | AlertThreshold | SoundEnabled | TestSound

  /** Row of a field in the dialog, top to bottom. */
  function FieldIndex(f: SettingsField): (i: nat)
    ensures i < 6
  {
    match f
    case RefreshInterval => 0
    case ShowLogsPanel => 1
    case LogLevelField => 2
    case AlertThreshold => 3
    case SoundEnabled => 4
    case TestSound => 5
  }

  function FieldAt(i: nat): (f: SettingsField)
    requires i < 6
    ensures FieldIndex(f) == i
  {
    if i == 0 then RefreshInterval
    else if i == 1 then ShowLogsPanel
    else if i == 2 then LogLevelField
    else if i == 3 then AlertThreshold
    else if i == 4 then SoundEnabled
    else TestSound
  }

  function NextField(f: SettingsField): (r: SettingsField)
    ensures FieldIndex(r) == (FieldIndex(f) + 1) % 6
  {
    match f
    case RefreshInterval => ShowLogsPanel
    case ShowLogsPanel => LogLevelField
    case LogLevelField => AlertThreshold
    case AlertThreshold => SoundEnabled
    case SoundEnabled => TestSound
    case TestSound => RefreshInterval
  }

  function PrevField(f: SettingsField): (r: SettingsField)
    ensures FieldIndex(r) == (FieldIndex(f) + 5) % 6
  {
    match f
    case RefreshInterval => TestSound
    case ShowLogsPanel => RefreshInterval
    case LogLevelField => ShowLogsPanel
    case AlertThreshold => LogLevelField
    case SoundEnabled => AlertThreshold
    case TestSound => SoundEnabled
  }

  lemma FieldIndexInjective(f: SettingsField, g: SettingsField)
    requires FieldIndex(f) == FieldIndex(g)
    ensures f == g
  {
  }

  /** `NextField` and `PrevField` undo each other. */
  lemma NextPrevInverse(f: SettingsField)
    ensures PrevField(NextField(f)) == f
    ensures NextField(PrevField(f)) == f
  {
    FieldIndexInjective(PrevField(NextField(f)), f);
    FieldIndexInjective(NextField(PrevField(f)), f);
  }

  /** `NextField` applied `k` times. */
  function NextN(f: SettingsField, k: nat): SettingsField
    decreases k
  {
    if k == 0 then f else NextField(NextN(f, k - 1))
  }

  /** `k` forward steps advance the row by `k`, modulo 6. */
  lemma {:induction false} NextNIndex(f: SettingsField, k: nat)
    ensures FieldIndex(NextN(f, k)) == (FieldIndex(f) + k) % 6
    decreases k
  {
    if k > 0 {
      NextNIndex(f, k - 1);
    }
  }

  /** The fields form one cycle of length exactly 6. */
  lemma FieldCycleLengthSix(f: SettingsField, k: nat)
    ensures NextN(f, 6) == f
    ensures 0 < k < 6 ==> NextN(f, k) != f
  {
    NextNIndex(f, 6);
    FieldIndexInjective(NextN(f, 6), f);
    NextNIndex(f, k);
  }
}
