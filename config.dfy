/** The launcher's settings (lib/config.py): three subprocess timeouts in
    seconds, how many sources to show and how long a notification stays.
    Building a configuration checks them in a fixed order and raises
    `ValueError` on the first one that is out of range. */
module LibConfig {
  import opened Common

  datatype Config = Config(
    pactlTimeout: real,
    setSourceTimeout: real,
    moveStreamTimeout: real,
    maxSourcesDisplay: int,
    notificationExpireTime: int)

  /** The check that rejected a configuration. */
  datatype ConfigError =
    | PactlTimeoutNotPositive
    | SetSourceTimeoutNotPositive
    | MoveStreamTimeoutNotPositive
    | MaxSourcesBelowOne
    | NotificationExpireNegative

  /** The `ValueError` message raised for each rejection. */
  function Message(e: ConfigError): string
  {
    match e
    case PactlTimeoutNotPositive => "pactl_timeout must be greater than 0"
    case SetSourceTimeoutNotPositive => "set_source_timeout must be greater than 0"
    case MoveStreamTimeoutNotPositive => "move_stream_timeout must be greater than 0"
    case MaxSourcesBelowOne => "max_sources_display must be at least 1"
    case NotificationExpireNegative => "notification_expire_time must be non-negative"
  }

  /** Every timeout positive, at least one source shown, a non-negative
      notification expiry. */
  predicate Valid(c: Config)
  {
    && c.pactlTimeout > 0.0
    && c.setSourceTimeout > 0.0
    && c.moveStreamTimeout > 0.0
    && c.maxSourcesDisplay >= 1
    && c.notificationExpireTime >= 0
  }

  /** `Config(...)` with its `__post_init__` checks: succeeds exactly for a
      valid configuration, and otherwise reports the first failing check in
      the order pactl timeout, set-source timeout, move-stream timeout, max
      sources, notification expiry. */
  function NewConfig(c: Config): (r: Result<Config, ConfigError>)
    ensures r.Ok? <==> Valid(c)
    ensures r.Ok? ==> r.value == c
    ensures c.pactlTimeout <= 0.0 ==> r == Err(PactlTimeoutNotPositive)
    ensures r == Err(SetSourceTimeoutNotPositive) <==> c.pactlTimeout > 0.0 && c.setSourceTimeout <= 0.0
    ensures r == Err(MoveStreamTimeoutNotPositive) <==>
              c.pactlTimeout > 0.0 && c.setSourceTimeout > 0.0 && c.moveStreamTimeout <= 0.0
    ensures r == Err(MaxSourcesBelowOne) <==>
              c.pactlTimeout > 0.0 && c.setSourceTimeout > 0.0 && c.moveStreamTimeout > 0.0
              && c.maxSourcesDisplay < 1
    ensures r == Err(NotificationExpireNegative) <==>
              c.pactlTimeout > 0.0 && c.setSourceTimeout > 0.0 && c.moveStreamTimeout > 0.0
              && c.maxSourcesDisplay >= 1 && c.notificationExpireTime < 0
  {
    if c.pactlTimeout <= 0.0 then Err(PactlTimeoutNotPositive)
    else if c.setSourceTimeout <= 0.0 then Err(SetSourceTimeoutNotPositive)
    else if c.moveStreamTimeout <= 0.0 then Err(MoveStreamTimeoutNotPositive)
    else if c.maxSourcesDisplay < 1 then Err(MaxSourcesBelowOne)
    else if c.notificationExpireTime < 0 then Err(NotificationExpireNegative)
    else Ok(c)
  }

  /** The field defaults: 0.3 s, 0.5 s, 0.5 s, 10 sources, 800 ms. */
  function Defaults(): Config
  {
    Config(0.3, 0.5, 0.5, 10, 800)
  }

  /** `Config()` succeeds: the defaults pass every check. */
  lemma DefaultsAccepted()
    ensures NewConfig(Defaults()).Ok?
  {
  }

  /** A notification expiry of 0 is accepted; only negative values fail. */
  lemma ZeroExpiryAccepted(c: Config)
    requires Valid(c.(notificationExpireTime := 1))
    ensures NewConfig(c.(notificationExpireTime := 0)).Ok?
    ensures NewConfig(c.(notificationExpireTime := -1)) == Err(NotificationExpireNegative)
  {
  }
}
