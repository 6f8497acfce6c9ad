/** Application-wide configuration: the alerting constants and the tick rate.
    These values are fixed at start-up; the user-editable settings live in
    the `UserSettings` module and are a separate record. */
module Config {
  import opened Common

  /** Alerting for long-running instances. */
  datatype AlertConfig = AlertConfig(
    alertThresholdSecs: nat,          // running time after which an unscheduled instance is reported
    soundEnabled: bool,               // whether a new alert also plays a sound
    slackWebhookUrl: Option<string>)  // reserved; never read by the application

  datatype AppConfig = AppConfig(
    awsRegion: Option<string>,        // region override; None means the provider's default chain
    alerts: AlertConfig,
    tickRateMs: nat)                  // main-loop period

  /** One hour, with sound, and no webhook. */
  function DefaultAlertConfig(): (c: AlertConfig)
    ensures c.alertThresholdSecs == 60 * 60
    ensures c.soundEnabled
    ensures c.slackWebhookUrl == None
  {
    AlertConfig(3600, true, None)
  }

  /** No region override, the default alerting, and a 250 ms tick. */
  function DefaultAppConfig(): (c: AppConfig)
    ensures c.awsRegion == None
    ensures c.alerts == DefaultAlertConfig()
    ensures c.alerts.alertThresholdSecs == 3600 && c.alerts.soundEnabled
    ensures c.tickRateMs == 250
  {
    AppConfig(None, DefaultAlertConfig(), 250)
  }
}
